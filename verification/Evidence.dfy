/** Evidence references: every printed path resolves to the position it was printed for, and each position has one path. */
module Evidence {
  import opened Json
  import opened Workflow
  import opened Store

  // ----- printing and reading a list index -----

  predicate IsDigit(c: char) {
    '0' <= c <= '9'
  }

  predicate AllDigits(text: string) {
    forall i :: 0 <= i < |text| ==> IsDigit(text[i])
  }

  function DigitValue(c: char): (d: nat)
    requires IsDigit(c)
    ensures d < 10
  {
    (c as int) - ('0' as int)
  }

  function NumberOf(text: string): nat
    requires AllDigits(text)
  {
    if text == [] then 0 else 10 * NumberOf(text[..|text| - 1]) + DigitValue(text[|text| - 1])
  }

  /** `int(part)`: an optional sign and decimal digits. */
  function ParseInt(text: string): Option<int> {
    if text != [] && (text[0] == '-' || text[0] == '+') then
      if |text| == 1 || !AllDigits(text[1..]) then None
      else
        var n: int := NumberOf(text[1..]);
        Some(if text[0] == '-' then -n else n)
    else if text != [] && AllDigits(text) then Some(NumberOf(text))
    else None
  }

  lemma {:induction false} DecimalReadsBack(n: nat)
    ensures AllDigits(Decimal(n)) && NumberOf(Decimal(n)) == n && ParseInt(Decimal(n)) == Some(n)
  {
    if n < 10 {
      assert IsDigit(Digit(n)) && DigitValue(Digit(n)) == n;
      assert Decimal(n)[..0] == [];
    } else {
      DecimalReadsBack(n / 10);
      assert IsDigit(Digit(n % 10)) && DigitValue(Digit(n % 10)) == n % 10;
      assert Decimal(n)[..|Decimal(n)| - 1] == Decimal(n / 10);
    }
  }

  // ----- paths and their parts -----

  /** Position of the first dot, or the length of the text. */
  function Cut(path: string): (c: nat)
    ensures c <= |path| && (c < |path| ==> path[c] == '.') && forall i :: 0 <= i < c ==> path[i] != '.'
  {
    if path == [] || path[0] == '.' then 0 else 1 + Cut(path[1..])
  }

  /** The non-empty parts of `path.split(".")`. */
  function Parts(path: string): seq<string>
    decreases |path|
  {
    var c := Cut(path);
    (if c == 0 then [] else [path[..c]]) + if c == |path| then [] else Parts(path[c + 1..])
  }

  predicate Plain(part: string) {
    part != [] && '.' !in part
  }

  predicate AllPlain(parts: seq<string>) {
    forall i :: 0 <= i < |parts| ==> Plain(parts[i])
  }

  function Join(parts: seq<string>): string {
    if parts == [] then [] else if |parts| == 1 then parts[0] else parts[0] + "." + Join(parts[1..])
  }

  /** `f"{path}.{key}" if path else key` */
  function Extend(path: string, key: string): string {
    if path == [] then key else path + "." + key
  }

  lemma {:induction false} JoinIsNotEmpty(parts: seq<string>)
    requires AllPlain(parts) && parts != []
    ensures Join(parts) != []
  {
    assert Plain(parts[0]);
  }

  lemma {:induction false} JoinExtends(parts: seq<string>, key: string)
    requires AllPlain(parts)
    ensures Join(parts + [key]) == Extend(Join(parts), key)
  {
    if parts == [] {
      assert parts + [key] == [key];
    } else {
      JoinIsNotEmpty(parts);
      assert (parts + [key])[1..] == parts[1..] + [key];
      if |parts| > 1 {
        assert AllPlain(parts[1..]);
        JoinIsNotEmpty(parts[1..]);
        JoinExtends(parts[1..], key);
        assert parts[0] + "." + (Join(parts[1..]) + "." + key) == parts[0] + "." + Join(parts[1..]) + "." + key;
      } else {
        assert parts[1..] + [key] == [key];
      }
    }
  }

  lemma {:induction false} CutAt(part: string, rest: string)
    requires Plain(part)
    ensures Cut(part + "." + rest) == |part| && Cut(part) == |part|
  {
    var path := part + "." + rest;
    assert forall i :: 0 <= i < |part| ==> path[i] == part[i] && part[i] in part;
    assert path[|part|] == '.';
  }

  /** Splitting takes a path apart into the parts it was joined from. */
  lemma {:induction false} PartsOfJoin(parts: seq<string>)
    requires AllPlain(parts)
    ensures Parts(Join(parts)) == parts
  {
    if parts != [] {
      assert Plain(parts[0]);
      if |parts| == 1 {
        CutAt(parts[0], []);
        assert parts[0][..|parts[0]|] == parts[0];
      } else {
        var rest := Join(parts[1..]);
        var path := parts[0] + "." + rest;
        CutAt(parts[0], rest);
        assert AllPlain(parts[1..]);
        PartsOfJoin(parts[1..]);
        assert path[..|parts[0]|] == parts[0] && path[|parts[0]| + 1..] == rest;
        assert parts == [parts[0]] + parts[1..];
      }
    }
  }

  lemma {:induction false} JoinIsInjective(a: seq<string>, b: seq<string>)
    requires AllPlain(a) && AllPlain(b) && Join(a) == Join(b)
    ensures a == b
  {
    PartsOfJoin(a);
    PartsOfJoin(b);
  }

  // ----- the printer -----

  predicate Empty(v: Json) {
    v == Null || v == Str("") || v == Arr([]) || v == Obj([])
  }

  /** The children of a value under their printed names: `dict.items()` or `enumerate(list)`. */
  function Entries(v: Json): seq<Field> {
    match v
    case Obj(fields) => fields
    case Arr(items) => seq(|items|, i requires 0 <= i < |items| => Field(Decimal(i), items[i]))
    case _ => []
  }

  /** `_reference_paths` */
  function ReferencePaths(v: Json, path: string, depth: nat): seq<string>
    requires depth <= 4
    decreases 4 - depth, 1, 0
  {
    if Empty(v) then []
    else (if path != [] then [path] else []) + if depth < 4 then ChildPaths(Entries(v), path, depth) else []
  }

  function ChildPaths(entries: seq<Field>, path: string, depth: nat): seq<string>
    requires depth < 4
    decreases 4 - depth, 0, |entries|
  {
    if entries == [] then []
    else ReferencePaths(entries[0].value, Extend(path, entries[0].key), depth + 1) + ChildPaths(entries[1..], path, depth)
  }

  // ----- the resolver -----

  /** One step of `_path_value`. */
  function Enter(v: Json, part: string): Option<Json> {
    match v
    case Obj(fields) => if HasKey(fields, part) then Some(Get(fields, part)) else None
    case Arr(items) =>
      var index := ParseInt(part);
      if index.None? then None
      else if 0 <= index.value < |items| then Some(items[index.value])
      else if -|items| <= index.value < 0 then Some(items[|items| + index.value])
      else None
    case _ => None
  }

  function Walk(v: Json, parts: seq<string>): Option<Json> {
    if parts == [] then Some(v)
    else
      var next := Enter(v, parts[0]);
      if next.None? then None else Walk(next.value, parts[1..])
  }

  /** `_path_value`; `None` is "NOT_AVAILABLE". */
  method PathValue(root: Json, path: string) returns (value: Option<Json>)
    ensures value == Walk(root, Parts(path))
  {
    var parts := Parts(path);
    var current := root;
    for k := 0 to |parts|
      invariant Walk(root, parts) == Walk(current, parts[k..])
    {
      assert parts[k..][1..] == parts[k + 1..];
      var next := Enter(current, parts[k]);
      if next.None? {
        return None;
      }
      current := next.value;
    }
    return Some(current);
  }

  // ----- what the resolver reads -----

  /** Decimal digits that write n, perhaps behind zeros. */
  ghost predicate Writes(text: string, n: nat) {
    exists z: nat :: WritesBehind(text, z, n)
  }

  predicate WritesBehind(text: string, z: nat, n: nat) {
    z <= |text| && text[z..] == Decimal(n) && forall i :: 0 <= i < z ==> text[i] == '0'
  }

  lemma {:induction false} ZerosAddNothing(z: nat, text: string)
    requires z <= |text| && AllDigits(text[z..]) && forall i :: 0 <= i < z ==> text[i] == '0'
    ensures AllDigits(text) && NumberOf(text) == NumberOf(text[z..])
  {
    assert forall i :: z <= i < |text| ==> text[i] == text[z..][i - z];
    if z < |text| {
      var n := |text| - 1;
      assert text[..n][z..] == text[z..][..|text[z..]| - 1];
      ZerosAddNothing(z, text[..n]);
    } else if text != [] {
      var n := |text| - 1;
      assert text[..n][n..] == [] && text[z..] == [];
      ZerosAddNothing(n, text[..n]);
    }
  }

  lemma {:induction false} DigitsWrite(text: string)
    requires text != [] && AllDigits(text)
    ensures Writes(text, NumberOf(text))
  {
    var n := |text| - 1;
    var front := text[..n];
    if n == 0 {
      assert front == [];
      DigitIsRead(text[0]);
      assert WritesBehind(text, 0, NumberOf(text));
    } else {
      DigitsWrite(front);
      DigitAdds(front, text[n]);
      assert text == front + [text[n]];
    }
  }

  lemma {:induction false} DigitAdds(front: string, last: char)
    requires AllDigits(front) && IsDigit(last) && Writes(front, NumberOf(front))
    ensures Writes(front + [last], 10 * NumberOf(front) + DigitValue(last))
  {
    hide NumberOf, IsDigit;
    var n, text, m := NumberOf(front), front + [last], 10 * NumberOf(front) + DigitValue(last);
    var z: nat :| WritesBehind(front, z, n);
    DigitIsRead(last);
    assert text[z..] == front[z..] + [last] && forall i :: 0 <= i < |front| ==> text[i] == front[i];
    if n == 0 {
      assert front[z..] == "0" && front[z] == front[z..][0];
      assert text[z + 1..] == [last] == Decimal(m);
      assert WritesBehind(text, z + 1, m);
    } else {
      DecimalGrows(n, DigitValue(last));
      assert WritesBehind(text, z, m);
    }
  }

  lemma {:induction false} DecimalGrows(n: nat, d: nat)
    requires n > 0 && d < 10
    ensures Decimal(10 * n + d) == Decimal(n) + [Digit(d)]
  {
    assert (10 * n + d) / 10 == n && (10 * n + d) % 10 == d;
  }

  lemma {:induction false} DigitIsRead(c: char)
    requires IsDigit(c)
    ensures Digit(DigitValue(c)) == c && Decimal(DigitValue(c)) == [c]
  {
  }

  lemma {:induction false} NumbersAreWritten(text: string, n: nat)
    ensures text != [] && AllDigits(text) && NumberOf(text) == n <==> Writes(text, n)
  {
    if text != [] && AllDigits(text) {
      DigitsWrite(text);
    }
    if z: nat :| WritesBehind(text, z, n) {
      DecimalReadsBack(n);
      ZerosAddNothing(z, text);
    }
  }

  /** The part names a place of a list of that length: from the front, or behind a minus sign from the back. */
  ghost predicate Names(part: string, length: nat, place: nat) {
    && place < length
    && (Writes(part, place)
        || (part != [] && part[0] == '+' && Writes(part[1..], place))
        || (part != [] && part[0] == '-' && (Writes(part[1..], length - place) || (place == 0 && Writes(part[1..], 0)))))
  }

  /** The part leads from one value into another: the value under the first field of that name, or at the place it names. */
  ghost predicate Leads(v: Json, part: string, w: Json) {
    match v
    case Obj(fields) =>
      exists i :: 0 <= i < |fields| && fields[i].key == part && fields[i].value == w && forall j :: 0 <= j < i ==> fields[j].key != part
    case Arr(items) => exists place: nat :: place < |items| && Names(part, |items|, place) && items[place] == w
    case _ => false
  }

  lemma {:induction false} NamesIsIndex(part: string, length: nat, place: nat)
    ensures Names(part, length, place) <==>
            place < length && (ParseInt(part) == Some(place) || ParseInt(part) == Some(place - length))
  {
    hide Writes, NumberOf;
    NumbersAreWritten(part, place);
    if part != [] {
      NumbersAreWritten(part[1..], place);
      NumbersAreWritten(part[1..], 0);
      if place < length {
        NumbersAreWritten(part[1..], length - place);
      }
      assert AllDigits(part) ==> IsDigit(part[0]);
    }
  }

  lemma {:induction false} LeadsIsEnter(v: Json, part: string, w: Json)
    ensures Leads(v, part, w) <==> Enter(v, part) == Some(w)
  {
    hide ParseInt, Names;
    match v
    case Obj(fields) =>
      if HasKey(fields, part) {
        assert fields[IndexOf(fields, part)].key == part;
      }
    case Arr(items) =>
      var parsed := ParseInt(part);
      if parsed.Some? && -|items| <= parsed.value < |items| {
        NamesIsIndex(part, |items|, if parsed.value < 0 then |items| + parsed.value else parsed.value);
      }
      if place: nat :| place < |items| && Names(part, |items|, place) && items[place] == w {
        NamesIsIndex(part, |items|, place);
      }
    case _ =>
  }

  /** The values on the way along the parts, from the root to the end. */
  ghost predicate IsTrail(trail: seq<Json>, parts: seq<string>) {
    |trail| == |parts| + 1 && forall k :: 0 <= k < |parts| ==> Leads(trail[k], parts[k], trail[k + 1])
  }

  /** What the resolver returns is the end of a trail along the parts; without a trail there is nothing to return. */
  lemma {:induction false} WalkIsTrail(v: Json, parts: seq<string>, w: Json)
    ensures Walk(v, parts) == Some(w) <==> exists trail :: IsTrail(trail, parts) && trail[0] == v && trail[|parts|] == w
    decreases parts
  {
    hide Leads, Enter, Walk;
    WalkUnfolds(v, parts);
    if parts == [] {
      assert v == w ==> IsTrail([v], parts);
    } else {
      if Enter(v, parts[0]).Some? {
        var next := Enter(v, parts[0]).value;
        WalkIsTrail(next, parts[1..], w);
        LeadsIsEnter(v, parts[0], next);
        if rest :| IsTrail(rest, parts[1..]) && rest[0] == next && rest[|parts| - 1] == w {
          TrailGrows(v, rest, parts);
        }
      }
      if trail :| IsTrail(trail, parts) && trail[0] == v && trail[|parts|] == w {
        LeadsIsEnter(v, parts[0], trail[1]);
        TrailShrinks(trail, parts);
        assert trail[1..][0] == trail[1] && trail[1..][|parts| - 1] == w;
      }
    }
  }

  lemma {:induction false} WalkUnfolds(v: Json, parts: seq<string>)
    ensures Walk(v, parts) == if parts == [] then Some(v) else if Enter(v, parts[0]).None? then None
                              else Walk(Enter(v, parts[0]).value, parts[1..])
  {
  }

  lemma {:induction false} TrailGrows(v: Json, rest: seq<Json>, parts: seq<string>)
    requires parts != [] && IsTrail(rest, parts[1..]) && Leads(v, parts[0], rest[0])
    ensures IsTrail([v] + rest, parts)
    ensures ([v] + rest)[0] == v && ([v] + rest)[|parts|] == rest[|parts| - 1]
  {
    hide Leads;
    forall k | 0 <= k < |parts|
      ensures Leads(([v] + rest)[k], parts[k], ([v] + rest)[k + 1])
    {
      if k > 0 {
        assert Leads(rest[k - 1], parts[1..][k - 1], rest[k]);
      }
    }
  }

  lemma {:induction false} TrailShrinks(trail: seq<Json>, parts: seq<string>)
    requires parts != [] && IsTrail(trail, parts)
    ensures IsTrail(trail[1..], parts[1..])
  {
    hide Leads;
    forall k | 0 <= k < |parts| - 1
      ensures Leads(trail[1..][k], parts[1..][k], trail[1..][k + 1])
    {
      assert Leads(trail[k + 1], parts[k + 1], trail[k + 2]);
    }
  }

  /** Splitting goes by the dots and drops what is empty between them. */
  lemma {:induction false} PartsAreExact(a: string, b: string)
    ensures Parts(a + "." + b) == Parts(a) + Parts(b)
    ensures '.' !in a ==> Parts(a) == if a == [] then [] else [a]
    decreases |a|
  {
    hide Cut;
    var path, c := a + "." + b, Cut(a);
    CutOfTwo(a, b);
    PartsUnfold(path);
    PartsUnfold(a);
    hide Parts;
    assert path[..c] == a[..c];
    if c < |a| {
      PartsAreExact(a[c + 1..], b);
      assert path[c + 1..] == a[c + 1..] + "." + b;
    } else {
      assert path[c + 1..] == b && a[..c] == a;
    }
  }

  lemma {:induction false} PartsUnfold(path: string)
    ensures var c := Cut(path);
            Parts(path) == (if path[..c] == [] then [] else [path[..c]]) + if c == |path| then [] else Parts(path[c + 1..])
  {
  }

  lemma {:induction false} CutOfTwo(a: string, b: string)
    ensures Cut(a + "." + b) == Cut(a) && (Cut(a) < |a| ==> '.' in a)
  {
    var path := a + "." + b;
    assert path[|a|] == '.' && forall i :: 0 <= i < |a| ==> path[i] == a[i];
  }

  // ----- positions -----

  /** The value at a position, named by the printed names on the way to it. */
  function At(v: Json, parts: seq<string>): Option<Json> {
    if parts == [] then Some(v)
    else if HasKey(Entries(v), parts[0]) then At(Get(Entries(v), parts[0]), parts[1..])
    else None
  }

  /** Dictionary keys are distinct, non-empty and without dots, at every depth. */
  predicate Named(v: Json) {
    match v
    case Obj(fields) =>
      DistinctKeys(fields) && forall i :: 0 <= i < |fields| ==> Plain(fields[i].key) && Named(fields[i].value)
    case Arr(items) => forall i :: 0 <= i < |items| ==> Named(items[i])
    case _ => true
  }

  lemma {:induction false} EntriesAreNamed(v: Json)
    requires Named(v)
    ensures DistinctKeys(Entries(v))
    ensures forall i :: 0 <= i < |Entries(v)| ==> Plain(Entries(v)[i].key) && Named(Entries(v)[i].value)
  {
    if v.Arr? {
      var entries := Entries(v);
      forall i | 0 <= i < |entries|
        ensures Plain(entries[i].key)
      {
        DecimalReadsBack(i);
      }
      forall i, j | 0 <= i < j < |entries|
        ensures entries[i].key != entries[j].key
      {
        DecimalReadsBack(i);
        DecimalReadsBack(j);
      }
    }
  }

  /** One step of the resolver finds the child the printer named. */
  lemma {:induction false} EnterFindsEntry(v: Json, k: nat)
    requires Named(v) && k < |Entries(v)|
    ensures Enter(v, Entries(v)[k].key) == Some(Entries(v)[k].value)
    ensures HasKey(Entries(v), Entries(v)[k].key) && Get(Entries(v), Entries(v)[k].key) == Entries(v)[k].value
  {
    EntriesAreNamed(v);
    IndexOfIsUnique(Entries(v), k);
    if v.Arr? {
      DecimalReadsBack(k);
    }
  }

  /** The resolver finds what is at a position. */
  lemma {:induction false} WalkFindsPosition(v: Json, parts: seq<string>)
    requires Named(v) && At(v, parts).Some?
    ensures Walk(v, parts) == At(v, parts) && AllPlain(parts) && Named(At(v, parts).value)
  {
    if parts != [] {
      var k := IndexOf(Entries(v), parts[0]);
      EntriesAreNamed(v);
      EnterFindsEntry(v, k);
      WalkFindsPosition(Entries(v)[k].value, parts[1..]);
      assert forall i :: 0 < i < |parts| ==> parts[i] == parts[1..][i - 1];
    }
  }

  /** A non-empty value at most `depth` steps below v. */
  predicate Position(v: Json, parts: seq<string>, depth: nat) {
    |parts| <= depth && At(v, parts).Some? && !Empty(At(v, parts).value)
  }

  // ----- soundness: a printed path names a position -----

  lemma {:induction false} PathsNamePositions(
      v: Json, parts: seq<string>, depth: nat, p: string) returns (more: seq<string>)
    requires Named(v) && AllPlain(parts) && depth <= 4 && p in ReferencePaths(v, Join(parts), depth)
    ensures p == Join(parts + more) && Position(v, more, 4 - depth) && AllPlain(parts + more) && parts + more != []
    decreases 4 - depth, 1, 0
  {
    if parts != [] {
      JoinIsNotEmpty(parts);
    }
    if parts != [] && p == Join(parts) {
      more := [];
      assert parts + more == parts;
    } else {
      EntriesAreNamed(v);
      var k;
      k, more := ChildPathsNamePositions(Entries(v), parts, depth, p);
      EnterFindsEntry(v, k);
      more := [Entries(v)[k].key] + more;
    }
  }

  lemma {:induction false} ChildPathsNamePositions(entries: seq<Field>, parts: seq<string>, depth: nat, p: string)
      returns (k: nat, more: seq<string>)
    requires AllPlain(parts) && depth < 4 && p in ChildPaths(entries, Join(parts), depth)
    requires forall i :: 0 <= i < |entries| ==> Plain(entries[i].key) && Named(entries[i].value)
    ensures k < |entries| && p == Join(parts + ([entries[k].key] + more)) && Position(entries[k].value, more, 3 - depth)
    ensures AllPlain(parts + ([entries[k].key] + more))
    decreases 4 - depth, 0, |entries|
  {
    hide Position, Named, Join, Extend, IsDigit;
    var key := entries[0].key;
    JoinExtends(parts, key);
    if p in ReferencePaths(entries[0].value, Join(parts + [key]), depth + 1) {
      k := 0;
      more := PathsNamePositions(entries[0].value, parts + [key], depth + 1, p);
      assert parts + [key] + more == parts + ([key] + more);
    } else {
      k, more := ChildPathsNamePositions(entries[1..], parts, depth, p);
      k := k + 1;
    }
  }

  /** Every printed reference resolves to a non-empty value at depth one to four, the one it was printed for. */
  lemma {:induction false} ReferencesResolve(root: Json, p: string) returns (parts: seq<string>)
    requires Named(root) && p in ReferencePaths(root, "", 0)
    ensures p == Join(parts) && parts != [] && Position(root, parts, 4)
    ensures Walk(root, Parts(p)) == At(root, parts)
  {
    parts := PathsNamePositions(root, [], 0, p);
    assert [] + parts == parts;
    PartsOfJoin(parts);
    WalkFindsPosition(root, parts);
  }

  // ----- completeness: each position is printed exactly once -----

  function Count(paths: seq<string>, p: string): nat {
    if paths == [] then 0 else (if paths[0] == p then 1 else 0) + Count(paths[1..], p)
  }

  lemma {:induction false} CountAppend(a: seq<string>, b: seq<string>, p: string)
    ensures Count(a + b, p) == Count(a, p) + Count(b, p)
  {
    if a == [] {
      assert a + b == b;
    } else {
      assert (a + b)[1..] == a[1..] + b;
      CountAppend(a[1..], b, p);
    }
  }

  lemma {:induction false} CountMissing(paths: seq<string>, p: string)
    requires p !in paths
    ensures Count(paths, p) == 0
  {
    if paths != [] {
      CountMissing(paths[1..], p);
    }
  }

  /** The subtree of a child prints no path outside it. */
  lemma {:induction false} OtherChildPrintsNothing(
      v: Json, parts: seq<string>, key: string, depth: nat, target: seq<string>)
    requires Named(v) && AllPlain(parts) && Plain(key) && depth < 4 && AllPlain(target)
    requires |target| <= |parts| || target[|parts|] != key
    ensures Count(ReferencePaths(v, Join(parts + [key]), depth + 1), Join(target)) == 0
  {
    hide ReferencePaths, Named, Join;
    var paths := ReferencePaths(v, Join(parts + [key]), depth + 1);
    if Join(target) in paths {
      var more := PathsNamePositions(v, parts + [key], depth + 1, Join(target));
      JoinIsInjective(target, parts + [key] + more);
    } else {
      CountMissing(paths, Join(target));
    }
  }

  /** A position below v is printed once, and nothing else is. */
  lemma {:induction false} PositionPrintedOnce(v: Json, parts: seq<string>, depth: nat, rest: seq<string>)
    requires Named(v) && AllPlain(parts + rest) && depth <= 4 && parts + rest != []
    ensures Count(ReferencePaths(v, Join(parts), depth), Join(parts + rest)) == if Position(v, rest, 4 - depth) then 1 else 0
    decreases 4 - depth, 1, 0
  {
    PlainPrefix(parts, rest);
    if !Empty(v) {
      var target := Join(parts + rest);
      var own := if Join(parts) != [] then [Join(parts)] else [];
      var below := if depth < 4 then ChildPaths(Entries(v), Join(parts), depth) else [];
      CountAppend(own, below, target);
      OwnPathCount(parts, rest);
      EntriesAreNamed(v);
      if depth < 4 {
        ChildPrintedOnce(Entries(v), parts, depth, rest);
      }
    }
  }

  lemma {:induction false} PlainPrefix(parts: seq<string>, rest: seq<string>)
    requires AllPlain(parts + rest)
    ensures AllPlain(parts) && AllPlain(rest)
  {
    assert forall i :: 0 <= i < |parts| ==> parts[i] == (parts + rest)[i];
    assert forall i :: 0 <= i < |rest| ==> rest[i] == (parts + rest)[|parts| + i];
  }

  lemma {:induction false} OwnPathCount(parts: seq<string>, rest: seq<string>)
    requires AllPlain(parts) && AllPlain(parts + rest) && parts + rest != []
    ensures Count(if Join(parts) != [] then [Join(parts)] else [], Join(parts + rest)) == if rest == [] then 1 else 0
  {
    if parts != [] {
      JoinIsNotEmpty(parts);
    }
    if Join(parts) == Join(parts + rest) {
      JoinIsInjective(parts, parts + rest);
      assert |parts| == |parts + rest|;
    }
    if rest == [] {
      assert parts + rest == parts;
    }
  }

  lemma {:induction false} ChildPrintedOnce(entries: seq<Field>, parts: seq<string>, depth: nat, rest: seq<string>)
    requires DistinctKeys(entries) && AllPlain(parts + rest) && depth < 4
    requires forall i :: 0 <= i < |entries| ==> Plain(entries[i].key) && Named(entries[i].value)
    ensures Count(ChildPaths(entries, Join(parts), depth), Join(parts + rest)) ==
            if rest != [] && HasKey(entries, rest[0]) && Position(Get(entries, rest[0]), rest[1..], 3 - depth) then 1 else 0
    decreases 4 - depth, 0, |entries|
  {
    hide Position, Named, ReferencePaths, Join, Extend;
    if entries != [] {
      var key, child, target := entries[0].key, entries[0].value, Join(parts + rest);
      PlainPrefix(parts, rest);
      JoinExtends(parts, key);
      CountAppend(ReferencePaths(child, Extend(Join(parts), key), depth + 1), ChildPaths(entries[1..], Join(parts), depth), target);
      ChildPrintedOnce(entries[1..], parts, depth, rest);
      if rest != [] && rest[0] == key {
        assert parts + rest == parts + [key] + rest[1..];
        PositionPrintedOnce(child, parts + [key], depth + 1, rest[1..]);
        AbsentLater(entries);
      } else {
        OtherChildPrintsNothing(child, parts, key, depth, parts + rest);
      }
    }
  }

  lemma {:induction false} AbsentLater(entries: seq<Field>)
    requires entries != [] && DistinctKeys(entries)
    ensures !HasKey(entries[1..], entries[0].key)
  {
    assert forall i :: 0 <= i < |entries[1..]| ==> entries[1..][i] == entries[i + 1];
  }

  /** Each non-empty position at depth one to four has exactly one reference; no other position has any. */
  lemma {:induction false} EachPositionHasOnePath(root: Json, parts: seq<string>)
    requires Named(root) && AllPlain(parts) && parts != []
    ensures Count(ReferencePaths(root, "", 0), Join(parts)) == if Position(root, parts, 4) then 1 else 0
  {
    assert [] + parts == parts;
    PositionPrintedOnce(root, [], 0, parts);
  }
}
