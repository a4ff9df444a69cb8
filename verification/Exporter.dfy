/** Export packages: what the writer stages, what the verifiers accept, and how far the manifest pins a package down. */
module Exporter {
  import opened Json
  import opened Workflow

  type Bytes = seq<bv8>

  /** SHA-256 as lower-case hexadecimal text, left uninterpreted. */
  type Sha = Bytes -> string

  /** `json.loads` over UTF-8, `None` when it raises. */
  type Decoder = Bytes -> Option<Json>

  datatype ExportError = UnsafePath | DuplicatePath | SizeLimit | PathClash

  datatype Listed = Listed(path: string, digest: string, size: nat)

  datatype Fault =
    | DuplicateMembers | UnsafeMember | ManifestMissing | ManifestInvalid | FilesInvalid
    | EntryInvalid | PathInvalid | DuplicateEntry(path: string) | DigestInvalid(path: string) | SizeInvalid(path: string)
    | Unlisted(path: string) | Missing(path: string) | SizeMismatch(path: string) | DigestMismatch(path: string)

  datatype Report = Report(valid: bool, filesVerified: nat, faults: seq<Fault>)

  datatype Member = Member(name: string, data: Bytes)

  const MANIFEST := "manifest.json"

  // ----- paths -----

  function Slash(path: string): (c: nat)
    ensures c <= |path| && (c < |path| ==> path[c] == '/') && forall i :: 0 <= i < c ==> path[i] != '/'
  {
    if path == [] || path[0] == '/' then 0 else 1 + Slash(path[1..])
  }

  /** The parts of a `PurePosixPath`: empty and "." components vanish. */
  function PathParts(path: string): seq<string>
    decreases |path|
  {
    var c := Slash(path);
    (if c == 0 || path[..c] == "." then [] else [path[..c]]) + if c == |path| then [] else PathParts(path[c + 1..])
  }

  function JoinPath(parts: seq<string>): string {
    if parts == [] then [] else if |parts| == 1 then parts[0] else parts[0] + "/" + JoinPath(parts[1..])
  }

  /** `PurePosixPath(path).as_posix()` of a relative path */
  function Normal(path: string): string {
    var parts := PathParts(path);
    if parts == [] then "." else JoinPath(parts)
  }

  /** `_is_safe_export_path` */
  predicate SafePath(path: string) {
    path != [] && '\\' !in path && path[0] != '/' && ".." !in PathParts(path)
  }

  predicate Component(part: string) {
    part != [] && part != "." && '/' !in part
  }

  lemma {:induction false} PartsAreComponents(path: string)
    ensures forall i :: 0 <= i < |PathParts(path)| ==> Component(PathParts(path)[i])
    ensures '\\' !in path ==> forall i :: 0 <= i < |PathParts(path)| ==> '\\' !in PathParts(path)[i]
    decreases |path|
  {
    var c := Slash(path);
    if c < |path| {
      PartsAreComponents(path[c + 1..]);
      assert '\\' !in path ==> '\\' !in path[c + 1..];
    }
    assert '/' !in path[..c];
    assert '\\' !in path ==> '\\' !in path[..c];
  }

  lemma {:induction false} PartsStep(first: string, rest: string)
    requires Component(first)
    ensures PathParts(first + "/" + rest) == [first] + PathParts(rest) && PathParts(first) == [first]
  {
    hide Slash;
    var path := first + "/" + rest;
    SlashAt(first, rest);
    assert path[..|first|] == first && path[|first| + 1..] == rest && first[..|first|] == first;
  }

  lemma {:induction false} PartsOfJoin(parts: seq<string>)
    requires forall i :: 0 <= i < |parts| ==> Component(parts[i])
    ensures PathParts(JoinPath(parts)) == parts
  {
    hide PathParts;
    if parts == [] {
      NoParts();
    } else {
      PartsStep(parts[0], JoinPath(parts[1..]));
      if |parts| > 1 {
        PartsOfJoin(parts[1..]);
      }
      assert parts == [parts[0]] + parts[1..];
    }
  }

  lemma {:induction false} NoParts()
    ensures PathParts([]) == []
  {
  }

  lemma {:induction false} SlashAt(part: string, rest: string)
    requires Component(part)
    ensures Slash(part + "/" + rest) == |part| && Slash(part) == |part|
  {
    var path := part + "/" + rest;
    assert forall i :: 0 <= i < |part| ==> path[i] == part[i] && part[i] in part;
    assert path[|part|] == '/';
  }

  lemma {:induction false} JoinIsClean(parts: seq<string>)
    requires forall i :: 0 <= i < |parts| ==> Component(parts[i]) && '\\' !in parts[i]
    ensures '\\' !in JoinPath(parts) && (parts != [] ==> JoinPath(parts) != [] && JoinPath(parts)[0] != '/')
  {
    if parts != [] {
      assert Component(parts[0]);
      assert parts[0][0] in parts[0];
      if |parts| > 1 {
        JoinIsClean(parts[1..]);
        assert JoinPath(parts)[0] == parts[0][0];
      }
    }
  }

  /** `part` stands in the path at `at`, from one slash (or end) to the next. */
  predicate StandsAt(path: string, part: string, at: nat) {
    && '/' !in part && at + |part| <= |path| && path[at..at + |part|] == part
    && (at == 0 || path[at - 1] == '/') && (at + |part| == |path| || path[at + |part|] == '/')
  }

  ghost predicate Stands(path: string, part: string) {
    exists at: nat :: StandsAt(path, part, at)
  }

  lemma {:induction false} FirstStands(path: string, part: string)
    requires StandsAt(path, part, 0)
    ensures Slash(path) == |part| && path[..Slash(path)] == part
  {
    assert forall i :: 0 <= i < |part| ==> path[i] == part[i] && part[i] in part;
  }

  lemma {:induction false} StandsLater(path: string, part: string, at: nat)
    requires Slash(path) < |path|
    ensures StandsAt(path[Slash(path) + 1..], part, at) <==> StandsAt(path, part, at + Slash(path) + 1)
  {
    var c := Slash(path);
    var rest := path[c + 1..];
    assert at + |part| <= |rest| ==> rest[at..at + |part|] == path[at + c + 1..at + c + 1 + |part|];
  }

  function Head(part: string): seq<string> {
    if part == [] || part == "." then [] else [part]
  }

  lemma {:induction false} PartsUnfold(path: string)
    ensures PathParts(path) == Head(path[..Slash(path)]) + if Slash(path) == |path| then [] else PathParts(path[Slash(path) + 1..])
  {
  }

  lemma {:induction false} StandsStep(path: string, part: string)
    ensures Stands(path, part) <==>
            part == path[..Slash(path)] || (Slash(path) < |path| && Stands(path[Slash(path) + 1..], part))
  {
    hide Slash, StandsAt;
    var c := Slash(path);
    assert StandsAt(path, path[..c], 0) by { FirstPart(path); }
    if c < |path| {
      var rest := path[c + 1..];
      if at: nat :| StandsAt(rest, part, at) {
        StandsLater(path, part, at);
      }
    }
    if at: nat :| StandsAt(path, part, at) {
      NextStands(path, part, at);
    }
  }

  lemma {:induction false} NextStands(path: string, part: string, at: nat)
    requires StandsAt(path, part, at)
    ensures part == path[..Slash(path)] || (Slash(path) < |path| && Stands(path[Slash(path) + 1..], part))
  {
    hide Slash;
    var c := Slash(path);
    if at == 0 {
      FirstStands(path, part);
    } else {
      assert path[at - 1] == '/';
      StandsLater(path, part, at - c - 1);
      assert StandsAt(path[c + 1..], part, at - c - 1);
    }
  }

  lemma {:induction false} FirstPart(path: string)
    ensures StandsAt(path, path[..Slash(path)], 0)
  {
    assert '/' !in path[..Slash(path)];
  }

  /** The parts of a path are what stands between its slashes, but for nothing and ".". */
  lemma {:induction false} PartsStand(path: string, part: string)
    ensures part in PathParts(path) <==> Component(part) && Stands(path, part)
    decreases |path|
  {
    hide Stands, Slash, PathParts;
    var c := Slash(path);
    PartsUnfold(path);
    StandsStep(path, part);
    assert '/' !in path[..c];
    if c < |path| {
      PartsStand(path[c + 1..], part);
    }
  }

  /** "/../" stands in the path at `at`. */
  predicate UpAt(path: string, at: nat) {
    at + 4 <= |path| && path[at..at + 4] == "/../"
  }

  /** The path begins or ends with "..", as a part of its own. */
  predicate UpAtEdge(path: string) {
    path == ".." || "../" <= path || (|path| >= 3 && path[|path| - 3..] == "/..")
  }

  /** The path leads upwards, character by character. */
  predicate LeadsUp(path: string) {
    UpAtEdge(path) || exists at: nat :: at < |path| && UpAt(path, at)
  }

  predicate DotsAt(path: string, at: nat) {
    && at + 2 <= |path| && path[at] == '.' == path[at + 1] && (at == 0 || path[at - 1] == '/')
    && (at + 2 == |path| || path[at + 2] == '/')
  }

  lemma {:induction false} UpStandsAt(path: string, at: nat)
    ensures StandsAt(path, "..", at) <==> DotsAt(path, at)
  {
    if at + 2 <= |path| {
      assert path[at..at + 2] == [path[at], path[at + 1]];
    }
  }

  lemma {:induction false} UpIsSpelled(path: string, at: nat)
    ensures UpAt(path, at) <==> at + 4 <= |path| && path[at] == '/' && DotsAt(path, at + 1)
  {
    if at + 4 <= |path| {
      assert path[at..at + 4] == [path[at], path[at + 1], path[at + 2], path[at + 3]];
    }
  }

  lemma {:induction false} EdgeIsSpelled(path: string)
    ensures UpAtEdge(path) <==> |path| >= 2 && (DotsAt(path, 0) || DotsAt(path, |path| - 2))
  {
    if |path| >= 3 {
      assert path[|path| - 3..] == [path[|path| - 3], path[|path| - 2], path[|path| - 1]];
    }
  }

  lemma {:induction false} UpStands(path: string)
    ensures LeadsUp(path) <==> Stands(path, "..")
  {
    hide StandsAt, UpAtEdge, UpAt;
    EdgeIsSpelled(path);
    if UpAtEdge(path) {
      UpStandsAt(path, 0);
      UpStandsAt(path, |path| - 2);
    } else if at: nat :| at < |path| && UpAt(path, at) {
      UpIsSpelled(path, at);
      UpStandsAt(path, at + 1);
    }
    if at: nat :| StandsAt(path, "..", at) {
      UpStandsAt(path, at);
      if at > 0 && at + 2 < |path| {
        UpIsSpelled(path, at - 1);
      }
    }
  }

  /** What is refused as a path: nothing at all, a backslash anywhere, a leading slash, and every way of leading up. */
  predicate Inside(path: string) {
    path != [] && '\\' !in path && path[0] != '/' && !LeadsUp(path)
  }

  lemma {:induction false} SafePathIsExact(path: string)
    ensures SafePath(path) <==> Inside(path)
  {
    hide LeadsUp;
    PartsStand(path, "..");
    UpStands(path);
  }

  /** The parts of two paths joined by a slash are those of the one and then those of the other. */
  lemma {:induction false} PartsOfTwo(a: string, b: string)
    ensures PathParts(a + "/" + b) == PathParts(a) + PathParts(b)
    decreases |a|
  {
    hide *;
    var path, c := a + "/" + b, Slash(a);
    SlashOfTwo(a, b);
    PartsUnfold(path);
    PartsUnfold(a);
    assert path[..c] == a[..c];
    if c < |a| {
      PartsOfTwo(a[c + 1..], b);
      assert path[c + 1..] == a[c + 1..] + "/" + b;
    } else {
      assert path[c + 1..] == b;
    }
  }

  lemma {:induction false} SlashOfTwo(a: string, b: string)
    ensures Slash(a + "/" + b) == Slash(a)
  {
    var path, c := a + "/" + b, Slash(a);
    assert path[c] == '/';
    assert forall i :: 0 <= i < c ==> path[i] == a[i];
  }

  lemma {:induction false} JoinOfTwo(a: seq<string>, b: seq<string>)
    requires a != [] && b != []
    ensures JoinPath(a + b) == JoinPath(a) + "/" + JoinPath(b)
  {
    if |a| > 1 {
      JoinOfTwo(a[1..], b);
      assert (a + b)[1..] == a[1..] + b;
    } else {
      assert (a + b)[1..] == b;
    }
  }

  lemma {:induction false} JoinIsDotless(parts: seq<string>)
    requires forall i :: 0 <= i < |parts| ==> Component(parts[i])
    ensures JoinPath(parts) != "."
  {
    if |parts| > 1 {
      assert |JoinPath(parts)| >= 2;
    }
  }

  /** The normal form: nothing and "." are dropped from a path, the rest stays in order, and a name without a slash is
      normal by itself. */
  lemma {:induction false} NormalIsExact(a: string, b: string)
    ensures Normal(a + "/" + b) == if Normal(a) == "." then Normal(b) else if Normal(b) == "." then Normal(a)
                                   else Normal(a) + "/" + Normal(b)
    ensures '/' !in a ==> Normal(a) == if a == [] then "." else a
  {
    hide PathParts, JoinPath;
    PartsOfTwo(a, b);
    PartsAreComponents(a);
    PartsAreComponents(b);
    JoinIsDotless(PathParts(a));
    JoinIsDotless(PathParts(b));
    var x, y := PathParts(a), PathParts(b);
    if x == [] {
      assert x + y == y;
    } else if y == [] {
      assert x + y == x;
    } else {
      JoinOfTwo(x, y);
    }
    if '/' !in a {
      OnePart(a);
    }
  }

  lemma {:induction false} OnePart(name: string)
    requires '/' !in name
    ensures PathParts(name) == if Component(name) then [name] else []
    ensures JoinPath([name]) == name && JoinPath([]) == []
  {
    assert forall i :: 0 <= i < |name| ==> name[i] in name;
    assert name[..|name|] == name;
  }

  /** Normalising a safe path gives a safe path that is already normal. */
  lemma {:induction false} NormalIsSafe(path: string)
    requires SafePath(path)
    ensures SafePath(Normal(path)) && Normal(Normal(path)) == Normal(path)
  {
    var parts := PathParts(path);
    PartsAreComponents(path);
    if parts == [] {
      assert Slash(".") == 1 && "."[..1] == ".";
      assert PathParts(".") == [];
    } else {
      PartsOfJoin(parts);
      JoinIsClean(parts);
    }
  }

  // ----- manifest entries -----

  predicate Hex64(text: string) {
    |text| == 64 && forall i :: 0 <= i < 64 ==> '0' <= text[i] <= '9' || 'a' <= text[i] <= 'f'
  }

  datatype RawCheck = Good(entry: Listed) | Bad(fault: Fault)

  /** A Python bool is an int too. */
  function SizeOf(size: Json): Option<nat> {
    match size
    case Num(n) => if n >= 0 then Some(n as nat) else None
    case Bool(b) => Some(if b then 1 else 0)
    case _ => None
  }

  function CheckRaw(raw: Json, seen: set<string>): RawCheck {
    if !raw.Obj? then Bad(EntryInvalid)
    else
      var path, digest, size := Get(raw.fields, "path"), Get(raw.fields, "sha256"), SizeOf(Get(raw.fields, "size"));
      if !path.Str? || !SafePath(path.s) then Bad(PathInvalid)
      else if path.s in seen then Bad(DuplicateEntry(path.s))
      else if !digest.Str? || !Hex64(digest.s) then Bad(DigestInvalid(path.s))
      else if size.None? then Bad(SizeInvalid(path.s))
      else Good(Listed(path.s, digest.s, size.value))
  }

  function ListedPaths(entries: seq<Listed>): set<string> {
    set i | 0 <= i < |entries| :: entries[i].path
  }

  function Accepted(raws: seq<Json>): seq<Listed> {
    if raws == [] then []
    else
      var before := Accepted(raws[..|raws| - 1]);
      match CheckRaw(raws[|raws| - 1], ListedPaths(before))
      case Good(entry) => before + [entry]
      case Bad(_) => before
  }

  function Refused(raws: seq<Json>): seq<Fault> {
    if raws == [] then []
    else
      var before := Refused(raws[..|raws| - 1]);
      match CheckRaw(raws[|raws| - 1], ListedPaths(Accepted(raws[..|raws| - 1])))
      case Good(_) => before
      case Bad(fault) => before + [fault]
  }

  function RawEntries(manifest: Json): Option<seq<Json>> {
    if manifest.Obj? && Get(manifest.fields, "files").Arr? then Some(Get(manifest.fields, "files").items) else None
  }

  /** `_manifest_entries` */
  method ManifestEntries(manifest: Json) returns (entries: seq<Listed>, faults: seq<Fault>)
    ensures match RawEntries(manifest)
            case Some(raws) => entries == Accepted(raws) && faults == Refused(raws)
            case None => entries == [] && faults != []
    ensures forall f :: f in faults ==> !f.Unlisted?
  {
    if !manifest.Obj? {
      return [], [ManifestInvalid];
    }
    var files := Get(manifest.fields, "files");
    if !files.Arr? {
      return [], [FilesInvalid];
    }
    var raws := files.items;
    entries, faults := [], [];
    var seen: set<string> := {};
    for i := 0 to |raws|
      invariant entries == Accepted(raws[..i]) && faults == Refused(raws[..i]) && seen == ListedPaths(entries)
      invariant forall f :: f in faults ==> !f.Unlisted?
    {
      assert raws[..i + 1][..i] == raws[..i];
      match CheckRaw(raws[i], seen) {
        case Good(entry) =>
          PathsAppend(entries, entry);
          seen := seen + {entry.path};
          entries := entries + [entry];
        case Bad(fault) =>
          faults := faults + [fault];
      }
    }
    assert raws[..|raws|] == raws;
  }

  lemma {:induction false} PathsAppend(entries: seq<Listed>, entry: Listed)
    ensures ListedPaths(entries + [entry]) == ListedPaths(entries) + {entry.path}
  {
    var all := entries + [entry];
    assert all[|entries|] == entry;
    forall p | p in ListedPaths(entries)
      ensures p in ListedPaths(all)
    {
      var i :| 0 <= i < |entries| && entries[i].path == p;
      assert all[i].path == p;
    }
  }

  predicate DistinctPaths(entries: seq<Listed>) {
    forall i, j :: 0 <= i < j < |entries| ==> entries[i].path != entries[j].path
  }

  lemma {:induction false} GoodRaw(raw: Json, seen: set<string>)
    requires CheckRaw(raw, seen).Good?
    ensures var entry := CheckRaw(raw, seen).entry; SafePath(entry.path) && Hex64(entry.digest) && entry.path !in seen
  {
    hide SafePath, Hex64, Get, SizeOf;
  }

  /** The entries a manifest yields are safe and distinct, whatever the manifest holds. */
  lemma {:induction false} AcceptedAreSafe(raws: seq<Json>)
    ensures DistinctPaths(Accepted(raws))
    ensures forall i :: 0 <= i < |Accepted(raws)| ==> SafePath(Accepted(raws)[i].path) && Hex64(Accepted(raws)[i].digest)
  {
    hide SafePath, Hex64, CheckRaw;
    if raws != [] {
      var before := Accepted(raws[..|raws| - 1]);
      AcceptedAreSafe(raws[..|raws| - 1]);
      if CheckRaw(raws[|raws| - 1], ListedPaths(before)).Good? {
        GoodRaw(raws[|raws| - 1], ListedPaths(before));
      }
      assert forall i :: 0 <= i < |before| ==> before[i].path in ListedPaths(before);
    }
  }

  /** An object whose fields name the entry's path, digest and size: a path inside the package, 64 hexadecimal digits, and a
      whole number from zero on, or a Boolean in its place. */
  predicate Describes(raw: Json, entry: Listed) {
    && raw.Obj? && Get(raw.fields, "path") == Str(entry.path) && Get(raw.fields, "sha256") == Str(entry.digest)
    && (var size := Get(raw.fields, "size");
        size == Num(entry.size) || (size == Bool(true) && entry.size == 1) || (size == Bool(false) && entry.size == 0))
    && Inside(entry.path) && |entry.digest| == 64 && forall i :: 0 <= i < 64 ==> entry.digest[i] in "0123456789abcdef"
  }

  lemma {:induction false} HexIsExact(text: string)
    ensures Hex64(text) <==> |text| == 64 && forall i :: 0 <= i < 64 ==> text[i] in "0123456789abcdef"
  {
    if |text| == 64 {
      forall i | 0 <= i < 64
        ensures text[i] in "0123456789abcdef" <==> '0' <= text[i] <= '9' || 'a' <= text[i] <= 'f'
      {
        HexDigit(text[i]);
      }
    }
  }

  lemma {:induction false} HexDigit(c: char)
    ensures c in "0123456789abcdef" <==> '0' <= c <= '9' || 'a' <= c <= 'f'
  {
    var digits := "0123456789abcdef";
    if '0' <= c <= '9' {
      assert digits[c as int - '0' as int] == c;
    } else if 'a' <= c <= 'f' {
      assert digits[c as int - 'a' as int + 10] == c;
    }
  }

  lemma {:induction false} GoodIsExact(raw: Json, seen: set<string>, entry: Listed)
    ensures CheckRaw(raw, seen) == Good(entry) <==> Describes(raw, entry) && entry.path !in seen
  {
    hide SafePath, Inside, Hex64, Get;
    SafePathIsExact(entry.path);
    HexIsExact(entry.digest);
  }

  /** A manifest's entries are taken as they stand, without an error, exactly when each describes one and no path comes twice. */
  lemma {:induction false} ListIsExact(raws: seq<Json>, entries: seq<Listed>)
    ensures Accepted(raws) == entries && Refused(raws) == [] <==>
            |entries| == |raws| && DistinctPaths(entries) && forall i :: 0 <= i < |raws| ==> Describes(raws[i], entries[i])
  {
    hide CheckRaw, Describes;
    AcceptedAtMost(raws);
    if raws != [] && |entries| == |raws| {
      var n := |raws| - 1;
      var before, last := entries[..n], entries[n];
      ListIsExact(raws[..n], before);
      AcceptedAtMost(raws[..n]);
      GoodIsExact(raws[n], ListedPaths(before), last);
      assert entries == before + [last];
      assert DistinctPaths(entries) <==> DistinctPaths(before) && last.path !in ListedPaths(before) by {
        DistinctGrows(before, last);
      }
    }
  }

  lemma {:induction false} DistinctGrows(entries: seq<Listed>, entry: Listed)
    ensures DistinctPaths(entries + [entry]) <==> DistinctPaths(entries) && entry.path !in ListedPaths(entries)
  {
    var all := entries + [entry];
    assert forall i :: 0 <= i < |entries| ==> all[i] == entries[i] && entries[i].path in ListedPaths(entries);
    assert all[|entries|] == entry;
  }

  lemma {:induction false} AcceptedAtMost(raws: seq<Json>)
    ensures |Accepted(raws)| + |Refused(raws)| == |raws|
  {
    hide CheckRaw;
    if raws != [] {
      AcceptedAtMost(raws[..|raws| - 1]);
    }
  }

  /** The raw entry at i describes `entry`, and none before it describes one of the same path. */
  ghost predicate FirstOfPath(raws: seq<Json>, i: nat, entry: Listed) {
    i < |raws| && Describes(raws[i], entry)
    && forall j, e :: 0 <= j < i && Describes(raws[j], e) ==> e.path != entry.path
  }

  /** Of a list with errors, too, an entry is taken exactly when it is the first one described for its path. */
  lemma {:induction false} AcceptedIsExact(raws: seq<Json>, entry: Listed)
    ensures entry in Accepted(raws) <==> exists i: nat :: FirstOfPath(raws, i, entry)
  {
    hide CheckRaw, Describes;
    if raws != [] {
      var n := |raws| - 1;
      var before := Accepted(raws[..n]);
      AcceptedIsExact(raws[..n], entry);
      assert forall i: nat :: i < n ==> (FirstOfPath(raws[..n], i, entry) <==> FirstOfPath(raws, i, entry));
      GoodIsExact(raws[n], ListedPaths(before), entry);
      if FirstOfPath(raws, n, entry) && entry.path in ListedPaths(before) {
        PathHasFirst(raws[..n], entry.path);
      }
      if entry.path !in ListedPaths(before) && Describes(raws[n], entry) {
        forall j, e | 0 <= j < n && Describes(raws[j], e)
          ensures e.path != entry.path
        {
          DescribedIsListed(raws[..n], j, e);
        }
        assert FirstOfPath(raws, n, entry);
      }
    }
  }

  lemma {:induction false} PathHasFirst(raws: seq<Json>, path: string)
    requires path in ListedPaths(Accepted(raws))
    ensures exists j, e :: 0 <= j < |raws| && Describes(raws[j], e) && e.path == path
  {
    hide CheckRaw, Describes;
    var n := |raws| - 1;
    if path in ListedPaths(Accepted(raws[..n])) {
      PathHasFirst(raws[..n], path);
      var j, e :| 0 <= j < n && Describes(raws[..n][j], e) && e.path == path;
      assert Describes(raws[j], e);
    } else {
      var entries := Accepted(raws);
      GoodIsExact(raws[n], ListedPaths(Accepted(raws[..n])), entries[|entries| - 1]);
    }
  }

  lemma {:induction false} DescribedIsListed(raws: seq<Json>, j: nat, entry: Listed)
    requires j < |raws| && Describes(raws[j], entry)
    ensures entry.path in ListedPaths(Accepted(raws))
  {
    hide CheckRaw, Describes;
    var n := |raws| - 1;
    var before := Accepted(raws[..n]);
    if j < n {
      DescribedIsListed(raws[..n], j, entry);
    }
    GoodIsExact(raws[n], ListedPaths(before), entry);
    match CheckRaw(raws[n], ListedPaths(before))
    case Good(last) => PathsAppend(before, last);
    case Bad(_) =>
  }

  // ----- checking the files -----

  predicate Sound(sha: Sha, entry: Listed, data: Bytes) {
    |data| == entry.size && sha(data) == entry.digest
  }

  function Flaws(sha: Sha, entry: Listed, files: map<string, Bytes>, place: string): seq<Fault> {
    if place !in files then [Missing(entry.path)]
    else
      (if |files[place]| != entry.size then [SizeMismatch(entry.path)] else [])
      + if sha(files[place]) != entry.digest then [DigestMismatch(entry.path)] else []
  }

  predicate AllSound(sha: Sha, entries: seq<Listed>, files: map<string, Bytes>, place: string -> string) {
    forall i :: 0 <= i < |entries| ==>
      place(entries[i].path) in files && Sound(sha, entries[i], files[place(entries[i].path)])
  }

  /** The verifiers' loop over the listed entries. */
  method CheckEntries(sha: Sha, entries: seq<Listed>, files: map<string, Bytes>, place: string -> string)
      returns (verified: nat, faults: seq<Fault>)
    ensures faults == [] <==> AllSound(sha, entries, files, place)
    ensures forall f :: f in faults ==> !f.Unlisted?
    ensures verified <= |entries| && (verified == |entries| <==> faults == [])
  {
    verified, faults := 0, [];
    for i := 0 to |entries|
      invariant faults == [] <==> AllSound(sha, entries[..i], files, place)
      invariant forall f :: f in faults ==> !f.Unlisted?
      invariant verified <= i && (verified == i <==> faults == [])
    {
      var flaws := Flaws(sha, entries[i], files, place(entries[i].path));
      if flaws == [] {
        verified := verified + 1;
      }
      faults := faults + flaws;
      assert entries[..i + 1] == entries[..i] + [entries[i]];
    }
    assert entries[..|entries|] == entries;
  }

  predicate DistinctNames(members: seq<Member>) {
    forall i, j :: 0 <= i < j < |members| ==> members[i].name != members[j].name
  }

  function Contents(members: seq<Member>): map<string, Bytes> {
    if members == [] then map[] else Contents(members[..|members| - 1])[members[|members| - 1].name := members[|members| - 1].data]
  }

  function Names(members: seq<Member>): set<string> {
    set i | 0 <= i < |members| :: members[i].name
  }

  lemma {:induction false} ContentsNames(members: seq<Member>)
    ensures Contents(members).Keys == Names(members)
  {
    if members != [] {
      ContentsNames(members[..|members| - 1]);
    }
  }

  /** The files are the listed ones and nothing else but the manifest. */
  predicate Lists(sha: Sha, entries: seq<Listed>, files: map<string, Bytes>, place: string -> string) {
    files.Keys <= ListedPaths(entries) + {MANIFEST} && AllSound(sha, entries, files, place)
  }

  /** What a manifest promises of the files around it; `place` is where a listed path is looked up. */
  predicate Matches(sha: Sha, decode: Decoder, files: map<string, Bytes>, place: string -> string) {
    && MANIFEST in files
    && var manifest := decode(files[MANIFEST]);
    && manifest.Some? && RawEntries(manifest.value).Some?
    && var raws := RawEntries(manifest.value).value;
    && Refused(raws) == []
    && Lists(sha, Accepted(raws), files, place)
  }

  /** The file under a listed path has the listed size and digest. */
  predicate Kept(sha: Sha, files: map<string, Bytes>, place: string, entry: Listed) {
    place in files && |files[place]| == entry.size && sha(files[place]) == entry.digest
  }

  /** A readable manifest lists the entries, each on its own path; each is among the files, and there is no other file. */
  ghost predicate Describe(
      sha: Sha, decode: Decoder, files: map<string, Bytes>, place: string -> string, raws: seq<Json>, entries: seq<Listed>)
  {
    && "manifest.json" in files
    && (exists fields :: decode(files["manifest.json"]) == Some(Obj(fields)) && Get(fields, "files") == Arr(raws))
    && |entries| == |raws| && (forall i :: 0 <= i < |raws| ==> Describes(raws[i], entries[i]))
    && (forall i, j :: 0 <= i < j < |entries| ==> entries[i].path != entries[j].path)
    && (forall i :: 0 <= i < |entries| ==> Kept(sha, files, place(entries[i].path), entries[i]))
    && (forall p :: p in files ==> p == "manifest.json" || exists i :: 0 <= i < |entries| && entries[i].path == p)
  }

  ghost predicate Described(sha: Sha, decode: Decoder, files: map<string, Bytes>, place: string -> string) {
    exists raws, entries :: Describe(sha, decode, files, place, raws, entries)
  }

  lemma {:induction false} MatchesIsExact(sha: Sha, decode: Decoder, files: map<string, Bytes>, place: string -> string)
    ensures Matches(sha, decode, files, place) <==> Described(sha, decode, files, place)
  {
    hide Accepted, Refused, Describes, Get;
    if Matches(sha, decode, files, place) {
      var raws := RawEntries(decode(files[MANIFEST]).value).value;
      ListIsExact(raws, Accepted(raws));
      assert Describe(sha, decode, files, place, raws, Accepted(raws));
    }
    if raws, entries :| Describe(sha, decode, files, place, raws, entries) {
      ListIsExact(raws, entries);
      assert files.Keys <= ListedPaths(entries) + {MANIFEST};
      assert AllSound(sha, entries, files, place);
    }
  }

  lemma {:induction false} ContentsAreExact(members: seq<Member>)
    requires DistinctNames(members)
    ensures forall i :: 0 <= i < |members| ==> members[i].name in Contents(members)
                                               && Contents(members)[members[i].name] == members[i].data
    ensures forall p :: p in Contents(members) ==> exists i :: 0 <= i < |members| && members[i].name == p
  {
    if members != [] {
      ContentsAreExact(members[..|members| - 1]);
      ContentsNames(members);
    }
  }

  lemma {:induction false} NoManifest(sha: Sha, decode: Decoder, files: map<string, Bytes>, place: string -> string)
    requires MANIFEST !in files
    ensures !Matches(sha, decode, files, place)
  {
  }

  function Plainly(path: string): string {
    path
  }

  predicate ValidZip(sha: Sha, decode: Decoder, members: seq<Member>) {
    && DistinctNames(members) && (forall i :: 0 <= i < |members| ==> SafePath(members[i].name))
    && Matches(sha, decode, Contents(members), Plainly)
  }

  /** The files that a readable manifest does not list. */
  function Extras(decode: Decoder, files: map<string, Bytes>): set<string>
    requires MANIFEST in files
  {
    var manifest := decode(files[MANIFEST]);
    var raws := if manifest.Some? then RawEntries(manifest.value) else None;
    if manifest.None? then {} else files.Keys - (if raws.Some? then ListedPaths(Accepted(raws.value)) else {}) - {MANIFEST}
  }

  /** The error about unlisted files names the first of them, in the order of texts. */
  predicate NamesFirstExtra(extras: set<string>, faults: seq<Fault>) {
    && (extras != {} <==> exists i :: 0 <= i < |faults| && faults[i].Unlisted?)
    && forall i :: 0 <= i < |faults| && faults[i].Unlisted? ==> IsFirst(faults[i].path, extras)
  }

  predicate IsFirst(path: string, paths: set<string>) {
    path in paths && forall q :: q in paths && q != path ==> Earlier(path, q)
  }

  /** `sorted(paths)[0]` */
  method First(paths: set<string>) returns (first: string)
    requires paths != {}
    ensures IsFirst(first, paths)
  {
    first :| first in paths;
    var rest := paths - {first};
    while rest != {}
      invariant rest <= paths && IsFirst(first, paths - rest)
      decreases rest
    {
      var q :| q in rest;
      TextsAreOrdered(first, q);
      if Earlier(q, first) {
        forall p | p in paths - rest && p != first
          ensures Earlier(q, p)
        {
          EarlierChains(q, first, p);
        }
        first := q;
      }
      rest := rest - {q};
    }
    assert paths - rest == paths;
  }

  method VerifyFiles(sha: Sha, decode: Decoder, files: map<string, Bytes>, place: string -> string) returns (r: Report)
    requires MANIFEST in files
    ensures r.valid <==> Matches(sha, decode, files, place)
    ensures NamesFirstExtra(Extras(decode, files), r.faults)
    ensures r.valid ==> r.filesVerified == |Accepted(RawEntries(decode(files[MANIFEST]).value).value)|
  {
    var manifest := decode(files[MANIFEST]);
    if manifest.None? {
      return Report(false, 0, [ManifestInvalid]);
    }
    var expected, faults := ManifestEntries(manifest.value);
    var extras := files.Keys - ListedPaths(expected) - {MANIFEST};
    ghost var at := |faults|;
    if extras != {} {
      var first := First(extras);
      faults := faults + [Unlisted(first)];
    }
    var verified, flaws := CheckEntries(sha, expected, files, place);
    assert extras == {} <==> files.Keys <= ListedPaths(expected) + {MANIFEST};
    assert extras != {} ==> (faults + flaws)[at].Unlisted?;
    return Report(faults + flaws == [], verified, faults + flaws);
  }

  /** `verify_export_package` on an archive: valid exactly when the archive is what its manifest says. */
  method VerifyZip(sha: Sha, decode: Decoder, members: seq<Member>) returns (r: Report)
    ensures r.valid <==> ValidZip(sha, decode, members)
    ensures r.valid <==> DistinctNames(members) && (forall i :: 0 <= i < |members| ==> Inside(members[i].name))
                         && Described(sha, decode, Contents(members), Plainly)
    ensures DistinctNames(members) && (forall i :: 0 <= i < |members| ==> SafePath(members[i].name)) && MANIFEST in Names(members) ==>
              MANIFEST in Contents(members) && NamesFirstExtra(Extras(decode, Contents(members)), r.faults)
    ensures r.valid ==> r.filesVerified == |Accepted(RawEntries(decode(Contents(members)[MANIFEST]).value).value)|
  {
    hide SafePath, Inside, Described, Contents, Lists, Accepted, Refused, RawEntries;
    ContentsNames(members);
    MatchesIsExact(sha, decode, Contents(members), Plainly);
    forall i | 0 <= i < |members|
      ensures SafePath(members[i].name) <==> Inside(members[i].name)
    {
      SafePathIsExact(members[i].name);
    }
    if exists i, j :: 0 <= i < j < |members| && members[i].name == members[j].name {
      return Report(false, 0, [DuplicateMembers]);
    }
    if exists i :: 0 <= i < |members| && !SafePath(members[i].name) {
      return Report(false, 0, [UnsafeMember]);
    }
    if MANIFEST !in Names(members) {
      return Report(false, 0, [ManifestMissing]);
    }
    r := VerifyFiles(sha, decode, Contents(members), Plainly);
  }

  /** `_verify_directory`: listed paths are looked up below the root, so in normal form. */
  method VerifyDirectory(sha: Sha, decode: Decoder, files: map<string, Bytes>) returns (r: Report)
    ensures r.valid <==> Matches(sha, decode, files, Normal)
    ensures r.valid <==> Described(sha, decode, files, Normal)
    ensures MANIFEST in files ==> NamesFirstExtra(Extras(decode, files), r.faults)
    ensures r.valid ==> r.filesVerified == |Accepted(RawEntries(decode(files[MANIFEST]).value).value)|
  {
    hide Described, Matches;
    MatchesIsExact(sha, decode, files, Normal);
    if MANIFEST !in files {
      assert !Matches(sha, decode, files, Normal) by { NoManifest(sha, decode, files, Normal); }
      return Report(false, 0, [ManifestMissing]);
    }
    r := VerifyFiles(sha, decode, files, Normal);
  }

  // ----- the manifest pins the package down -----

  /** Two different texts with one digest. */
  ghost predicate Collides(sha: Sha, a: map<string, Bytes>, b: map<string, Bytes>) {
    exists p :: p in a && p in b && a[p] != b[p] && sha(a[p]) == sha(b[p])
  }

  /** Two sets of files under one list and with one manifest are the same, unless the hash collides on one of them, wherever
      listed paths are looked up, as long as each file is looked up where it is. */
  lemma {:induction false} SameListSameFiles(
      sha: Sha, entries: seq<Listed>, a: map<string, Bytes>, b: map<string, Bytes>, place: string -> string)
    requires Lists(sha, entries, a, place) && Lists(sha, entries, b, place)
    requires MANIFEST in a && MANIFEST in b && a[MANIFEST] == b[MANIFEST]
    requires forall p :: p in a || p in b ==> place(p) == p
    ensures a == b || Collides(sha, a, b)
  {
    SameFilesAtHome(sha, entries, a, b, place, place);
    SameFilesAtHome(sha, entries, b, a, place, place);
    assert a.Keys == b.Keys;
    if !Collides(sha, a, b) {
      forall p | p in a
        ensures a[p] == b[p]
      {
        assert p in b;
      }
    }
  }

  /** Files of one package that the other looks up where they are, it holds with the same digest. */
  lemma {:induction false} SameFilesAtHome(
      sha: Sha, entries: seq<Listed>, a: map<string, Bytes>, b: map<string, Bytes>,
      placeA: string -> string, placeB: string -> string)
    requires Lists(sha, entries, a, placeA) && Lists(sha, entries, b, placeB)
    requires MANIFEST in a && MANIFEST in b && a[MANIFEST] == b[MANIFEST]
    ensures forall p :: p in a && placeA(p) == p && placeB(p) == p ==> p in b && sha(a[p]) == sha(b[p])
  {
    forall p | p in a && placeA(p) == p && placeB(p) == p
      ensures p in b && sha(a[p]) == sha(b[p])
    {
      if p != MANIFEST {
        assert p in ListedPaths(entries);
        var i :| 0 <= i < |entries| && entries[i].path == p;
        assert Sound(sha, entries[i], a[p]) && Sound(sha, entries[i], b[p]);
      }
    }
  }

  /** Two archives that verify against the same manifest hold the same files, unless the hash collides on one. */
  lemma {:induction false} SameManifestSamePackage(sha: Sha, decode: Decoder, a: seq<Member>, b: seq<Member>)
    requires ValidZip(sha, decode, a) && ValidZip(sha, decode, b) && Contents(a)[MANIFEST] == Contents(b)[MANIFEST]
    ensures Contents(a) == Contents(b) || Collides(sha, Contents(a), Contents(b))
  {
    hide SafePath, Accepted, Refused, RawEntries, Lists, Collides, Contents;
    var x, y := Contents(a), Contents(b);
    SameListSameFiles(sha, Accepted(RawEntries(decode(x[MANIFEST]).value).value), x, y, Plainly);
  }

  /** The files below a directory, named by their paths relative to it. */
  predicate DirectoryFiles(files: map<string, Bytes>) {
    forall p :: p in files ==> Normal(p) == p
  }

  /** Two directories that verify against the same manifest hold the same files, unless the hash collides on one. */
  lemma {:induction false} SameManifestSameDirectory(sha: Sha, decode: Decoder, a: map<string, Bytes>, b: map<string, Bytes>)
    requires DirectoryFiles(a) && DirectoryFiles(b)
    requires Matches(sha, decode, a, Normal) && Matches(sha, decode, b, Normal) && a[MANIFEST] == b[MANIFEST]
    ensures a == b || Collides(sha, a, b)
  {
    hide Normal, SafePath, Accepted, Refused, RawEntries, Lists, Collides;
    SameListSameFiles(sha, Accepted(RawEntries(decode(a[MANIFEST]).value).value), a, b, Normal);
  }

  /** The files of an archive that can lie below a directory under their own name. */
  function NormalPart(files: map<string, Bytes>): map<string, Bytes> {
    map p | p in files && Normal(p) == p :: files[p]
  }

  /** An archive and a directory that verify against the same manifest: the directory holds exactly those files of the archive
      whose names are normal, unless the hash collides on one. */
  lemma {:induction false} ArchiveAgainstDirectory(sha: Sha, decode: Decoder, a: seq<Member>, b: map<string, Bytes>)
    requires ValidZip(sha, decode, a) && Matches(sha, decode, b, Normal) && DirectoryFiles(b)
    requires Contents(a)[MANIFEST] == b[MANIFEST]
    ensures b == NormalPart(Contents(a)) || Collides(sha, Contents(a), b)
    ensures DirectoryFiles(Contents(a)) ==> b == Contents(a) || Collides(sha, Contents(a), b)
  {
    hide Normal, SafePath, Accepted, Refused, RawEntries, Lists, Contents;
    var files := Contents(a);
    var entries := Accepted(RawEntries(decode(b[MANIFEST]).value).value);
    SameFilesAtHome(sha, entries, files, b, Plainly, Normal);
    SameFilesAtHome(sha, entries, b, files, Normal, Plainly);
    assert b.Keys == NormalPart(files).Keys;
    if !Collides(sha, files, b) {
      forall p | p in b
        ensures b[p] == files[p]
      {
        assert p in files;
      }
    }
    assert DirectoryFiles(files) ==> NormalPart(files) == files;
  }

  // ----- the writer -----

  function Total(entries: seq<Listed>): nat {
    if entries == [] then 0 else Total(entries[..|entries| - 1]) + entries[|entries| - 1].size
  }

  /** One path lies below the other, taken as a directory. */
  predicate Under(path: string, directory: string) {
    directory + "/" <= path
  }

  /** The file system refuses: the place is a directory, or a file stands where a directory is needed. */
  predicate Clashes(files: map<string, Bytes>, path: string) {
    path == "." || exists k :: k in files && (Under(k, path) || Under(path, k))
  }

  /** The staged files are exactly the listed ones, each with the listed size and digest. */
  predicate Staged(sha: Sha, entries: seq<Listed>, files: map<string, Bytes>) {
    && DistinctPaths(entries) && files.Keys == ListedPaths(entries) && AllSound(sha, entries, files, Plainly)
    && forall i :: 0 <= i < |entries| ==> SafePath(entries[i].path) && Normal(entries[i].path) == entries[i].path
  }

  /** The files can lie below one directory: none is the directory itself, and none stands where another needs a directory. */
  predicate CanLie(files: map<string, Bytes>) {
    forall p, q :: p in files && q in files ==> p != "." && !(p + "/" <= q)
  }

  lemma {:induction false} UnclashedCanLie(files: map<string, Bytes>, path: string, data: Bytes)
    requires CanLie(files) && !Clashes(files, path)
    ensures CanLie(files[path := data])
  {
    assert !(path + "/" <= path);
  }

  lemma {:induction false} StagedAreInside(sha: Sha, entries: seq<Listed>, files: map<string, Bytes>)
    requires Staged(sha, entries, files)
    ensures forall p :: p in files ==> Inside(p)
  {
    hide SafePath, Normal, Inside;
    forall p | p in files
      ensures Inside(p)
    {
      var i :| 0 <= i < |entries| && entries[i].path == p;
      SafePathIsExact(p);
    }
  }

  class PackageWriter {
    const maxBytes: nat
    const sha: Sha
    var totalBytes: nat
    var entries: seq<Listed>
    var required: seq<bool>
    var paths: set<string>
    var files: map<string, Bytes>

    ghost predicate Valid()
      reads this
    {
      Staged(sha, entries, files) && CanLie(files) && paths == ListedPaths(entries) && |required| == |entries|
      && totalBytes == Total(entries) <= maxBytes
    }

    constructor (maxBytes: int, sha: Sha)
      ensures Valid() && this.sha == sha && this.maxBytes == MaxInt(1, maxBytes)
      ensures entries == [] && required == [] && files == map[] && totalBytes == 0
    {
      this.maxBytes, this.sha := MaxInt(1, maxBytes), sha;
      totalBytes, entries, required, paths, files := 0, [], [], {}, map[];
    }

    method AddBytes(path: string, data: Bytes, needed: bool) returns (error: Option<ExportError>)
      requires Valid()
      modifies this
      ensures Valid()
      ensures error == if !SafePath(path) then Some(UnsafePath)
                       else if old(Normal(path) in paths) then Some(DuplicatePath)
                       else if old(totalBytes) + |data| > maxBytes then Some(SizeLimit)
                       else if old(Clashes(files, Normal(path))) then Some(PathClash) else None
      ensures error == Some(UnsafePath) <==> path == [] || '\\' in path || path[0] == '/' || LeadsUp(path)
      ensures forall p :: p in files ==> Inside(p)
      ensures CanLie(files)
      ensures error.None? ==> entries == old(entries) + [Listed(Normal(path), sha(data), |data|)]
                              && required == old(required) + [needed] && files == old(files)[Normal(path) := data]
      ensures error.Some? ==> entries == old(entries) && required == old(required) && files == old(files)
    {
      hide Normal, SafePath, Clashes, Staged, LeadsUp, CanLie;
      SafePathIsExact(path);
      StagedAreInside(sha, entries, files);
      if !SafePath(path) {
        return Some(UnsafePath);
      }
      var safe := Normal(path);
      if safe in paths {
        return Some(DuplicatePath);
      }
      var nextSize := totalBytes + |data|;
      if nextSize > maxBytes {
        return Some(SizeLimit);
      }
      if Clashes(files, safe) {
        return Some(PathClash);
      }
      NormalIsSafe(path);
      SafePathIsExact(safe);
      UnclashedCanLie(files, safe, data);
      var entry := Listed(safe, sha(data), |data|);
      StagedGrows(sha, entries, files, entry, data);
      PathsAppend(entries, entry);
      assert (entries + [entry])[..|entries|] == entries;
      files := files[safe := data];
      totalBytes := nextSize;
      paths := paths + {safe};
      entries := entries + [entry];
      required := required + [needed];
      return None;
    }

    /** The manifest is written last and is no entry itself. */
    method WriteManifest(data: Bytes) returns (error: Option<ExportError>)
      requires Valid()
      modifies this
      ensures error == if old(totalBytes) + |data| > maxBytes then Some(SizeLimit)
                       else if old(Clashes(files, MANIFEST)) then Some(PathClash) else None
      ensures entries == old(entries) && required == old(required)
      ensures error.Some? ==> Valid() && files == old(files)
      ensures CanLie(files)
      ensures error.None? ==> files == old(files)[MANIFEST := data]
                              && totalBytes == Total(entries) + |data| <= maxBytes
    {
      if totalBytes + |data| > maxBytes {
        return Some(SizeLimit);
      }
      if Clashes(files, MANIFEST) {
        return Some(PathClash);
      }
      UnclashedCanLie(files, MANIFEST, data);
      files := files[MANIFEST := data];
      totalBytes := totalBytes + |data|;
      return None;
    }
  }

  lemma {:induction false} StagedGrows(
      sha: Sha, entries: seq<Listed>, files: map<string, Bytes>, entry: Listed, data: Bytes)
    requires Staged(sha, entries, files) && entry.path !in ListedPaths(entries) && Sound(sha, entry, data)
    requires SafePath(entry.path) && Normal(entry.path) == entry.path
    ensures Staged(sha, entries + [entry], files[entry.path := data])
  {
    hide SafePath, Normal;
    PathsAppend(entries, entry);
    assert forall i :: 0 <= i < |entries| ==> entries[i].path in ListedPaths(entries);
  }

  // ----- what the writer builds verifies -----

  function EntryJson(entry: Listed, required: bool): Json {
    Obj([Field("path", Str(entry.path)), Field("sha256", Str(entry.digest)), Field("size", Num(entry.size)),
         Field("required", Bool(required))])
  }

  function EntriesJson(entries: seq<Listed>, required: seq<bool>): seq<Json>
    requires |required| == |entries|
  {
    seq(|entries|, i requires 0 <= i < |entries| => EntryJson(entries[i], required[i]))
  }

  /** Reading the written entries back gives them unchanged, whichever of them are marked as required. */
  lemma {:induction false} EntriesReadBack(entries: seq<Listed>, required: seq<bool>)
    requires DistinctPaths(entries) && |required| == |entries|
    requires forall i :: 0 <= i < |entries| ==> SafePath(entries[i].path) && Hex64(entries[i].digest)
    ensures Accepted(EntriesJson(entries, required)) == entries && Refused(EntriesJson(entries, required)) == []
  {
    hide SafePath, Hex64, CheckRaw, EntryJson;
    if entries != [] {
      var n := |entries| - 1;
      EntriesReadBack(entries[..n], required[..n]);
      assert EntriesJson(entries, required)[..n] == EntriesJson(entries[..n], required[..n]);
      EntryReadsBack(entries[n], required[n], ListedPaths(entries[..n]));
      assert entries == entries[..n] + [entries[n]];
    } else {
      assert EntriesJson(entries, required) == [];
    }
  }

  lemma {:induction false} EntryReadsBack(entry: Listed, required: bool, seen: set<string>)
    requires SafePath(entry.path) && Hex64(entry.digest) && entry.path !in seen
    ensures CheckRaw(EntryJson(entry, required), seen) == Good(entry)
  {
    hide SafePath, Hex64;
    var fields := EntryJson(entry, required).fields;
    assert fields[0].key == "path" && fields[1].key == "sha256" && fields[2].key == "size";
    assert "path" != "sha256" && "path" != "size" && "sha256" != "size";
    assert IndexOf(fields, "path") == 0;
    assert fields[1..][0] == fields[1];
    assert IndexOf(fields, "sha256") == 1;
    assert fields[1..][1..][0] == fields[2];
    assert IndexOf(fields, "size") == 2;
  }

  /** The manifest does not change what is listed, or happens to match it. */
  predicate ManifestFits(sha: Sha, entries: seq<Listed>, data: Bytes) {
    forall i :: 0 <= i < |entries| && entries[i].path == MANIFEST ==> Sound(sha, entries[i], data)
  }

  /** A package the writer built, with its manifest, verifies and counts every entry, as an archive and as a directory:
      precisely unless "manifest.json" was added as an entry and then overwritten. */
  lemma {:induction false} BuiltPackageVerifies(
    sha: Sha, decode: Decoder, entries: seq<Listed>, required: seq<bool>, files: map<string, Bytes>, manifest: seq<Field>,
    data: Bytes, members: seq<Member>)
    requires |required| == |entries| && Staged(sha, entries, files) && forall b :: Hex64(sha(b))
    requires decode(data) == Some(Obj(manifest)) && Get(manifest, "files") == Arr(EntriesJson(entries, required))
    requires DistinctNames(members) && Contents(members) == files[MANIFEST := data]
    ensures RawEntries(Obj(manifest)) == Some(EntriesJson(entries, required)) && Accepted(EntriesJson(entries, required)) == entries
    ensures ValidZip(sha, decode, members) <==> ManifestFits(sha, entries, data)
    ensures Matches(sha, decode, files[MANIFEST := data], Normal) <==> ManifestFits(sha, entries, data)
  {
    hide SafePath, Hex64, Accepted, Refused, Normal, Contents, Matches, Lists, AllSound, ManifestFits;
    StagedReadBack(sha, entries, required, files);
    StagedNamesAreSafe(sha, entries, files, data, members);
    SoundAfterManifest(sha, entries, files, data);
    ReadManifestMatches(sha, decode, files[MANIFEST := data], manifest, EntriesJson(entries, required), Plainly);
    ReadManifestMatches(sha, decode, files[MANIFEST := data], manifest, EntriesJson(entries, required), Normal);
    ListsAfterManifest(sha, entries, files, data, Plainly);
    ListsAfterManifest(sha, entries, files, data, Normal);
  }

  lemma {:induction false} StagedReadBack(sha: Sha, entries: seq<Listed>, required: seq<bool>, files: map<string, Bytes>)
    requires |required| == |entries| && Staged(sha, entries, files) && forall b :: Hex64(sha(b))
    ensures Accepted(EntriesJson(entries, required)) == entries && Refused(EntriesJson(entries, required)) == []
  {
    hide SafePath, Hex64, Accepted, Refused, Normal;
    forall i | 0 <= i < |entries|
      ensures Hex64(entries[i].digest)
    {
      assert Sound(sha, entries[i], files[Plainly(entries[i].path)]);
    }
    EntriesReadBack(entries, required);
  }

  lemma {:induction false} ReadManifestMatches(
      sha: Sha, decode: Decoder, files: map<string, Bytes>, manifest: seq<Field>, raws: seq<Json>, place: string -> string)
    requires MANIFEST in files && decode(files[MANIFEST]) == Some(Obj(manifest)) && Get(manifest, "files") == Arr(raws)
    requires Refused(raws) == []
    ensures Matches(sha, decode, files, place) <==> Lists(sha, Accepted(raws), files, place)
    ensures Accepted(RawEntries(decode(files[MANIFEST]).value).value) == Accepted(raws)
  {
    hide Refused, Accepted, Lists;
  }

  lemma {:induction false} ListsAfterManifest(
      sha: Sha, entries: seq<Listed>, files: map<string, Bytes>, data: Bytes, place: string -> string)
    requires files.Keys == ListedPaths(entries)
    ensures Lists(sha, entries, files[MANIFEST := data], place) <==> AllSound(sha, entries, files[MANIFEST := data], place)
  {
    hide AllSound;
  }

  /** The exception at a concrete input: a file is added as "manifest.json", then the manifest is written over it. */
  method ListManifestFirst(sha: Sha, decode: Decoder, content: Bytes, manifest: seq<Field>, data: Bytes, members: seq<Member>)
      returns (files: map<string, Bytes>)
    requires |content| != |data| && (forall b :: Hex64(sha(b))) && decode(data) == Some(Obj(manifest))
    requires Get(manifest, "files") == Arr([EntryJson(Listed(MANIFEST, sha(content), |content|), true)])
    requires DistinctNames(members) && Contents(members) == map[MANIFEST := data]
    ensures files == Contents(members) && !ValidZip(sha, decode, members) && !Matches(sha, decode, files, Normal)
  {
    hide SafePath, Normal, Contents, ValidZip, Matches, Staged, Hex64, EntryJson, Clashes, Get, Total;
    var writer := new PackageWriter(|content| + |data|, sha);
    ManifestIsSafe();
    assert !Clashes(writer.files, MANIFEST) by { NothingClashes(); }
    TotalOfOne(Listed(MANIFEST, sha(content), |content|));
    var refused := writer.AddBytes(MANIFEST, content, true);
    ghost var entries, required, staged := writer.entries, writer.required, writer.files;
    assert entries == [Listed(MANIFEST, sha(content), |content|)] && writer.totalBytes == |content|;
    assert staged == map[MANIFEST := content] && staged[MANIFEST := data] == map[MANIFEST := data];
    assert EntriesJson(entries, required) == [EntryJson(entries[0], true)];
    BuiltPackageVerifies(sha, decode, entries, required, staged, manifest, data, members);
    assert !Clashes(staged, MANIFEST) by { ManifestAloneFits(content); }
    refused := writer.WriteManifest(data);
    files := writer.files;
    assert refused.None?;
    assert entries[0].path == MANIFEST && !Sound(sha, entries[0], data);
    assert files == staged[MANIFEST := data];
  }

  lemma {:induction false} NothingClashes()
    ensures !Clashes(map[], MANIFEST)
  {
    assert |MANIFEST| == 13;
  }

  lemma {:induction false} ManifestAloneFits(content: Bytes)
    ensures !Clashes(map[MANIFEST := content], MANIFEST)
  {
    assert |MANIFEST| == 13;
    assert |MANIFEST + "/"| == 14;
  }

  lemma {:induction false} TotalOfOne(entry: Listed)
    ensures Total([]) == 0 && Total([entry]) == entry.size
  {
    assert [entry][..0] == [];
  }

  lemma {:induction false} StagedNamesAreSafe(
    sha: Sha, entries: seq<Listed>, files: map<string, Bytes>, data: Bytes, members: seq<Member>)
    requires Staged(sha, entries, files) && Contents(members) == files[MANIFEST := data]
    ensures forall i :: 0 <= i < |members| ==> SafePath(members[i].name)
  {
    hide Normal, Contents, PathParts;
    ContentsNames(members);
    ManifestIsSafe();
    forall i | 0 <= i < |members|
      ensures SafePath(members[i].name)
    {
      assert members[i].name in Names(members);
      if members[i].name != MANIFEST {
        var j :| 0 <= j < |entries| && entries[j].path == members[i].name;
      }
    }
  }

  lemma {:induction false} ManifestHasNoSlash()
    ensures '/' !in MANIFEST && '\\' !in MANIFEST && MANIFEST[0] != '/'
  {
  }

  lemma {:induction false} OneComponentIsSafe(name: string)
    requires Component(name) && '\\' !in name && name != ".."
    ensures SafePath(name) && Normal(name) == name
  {
    SlashAt(name, []);
    assert name[..|name|] == name && name[0] in name;
    assert PathParts(name) == [name];
  }

  lemma {:induction false} ManifestIsSafe()
    ensures SafePath(MANIFEST) && Normal(MANIFEST) == MANIFEST && MANIFEST != "."
  {
    hide SafePath;
    ManifestHasNoSlash();
    assert |MANIFEST| == 13;
    OneComponentIsSafe(MANIFEST);
  }

  lemma {:induction false} SoundAfterManifest(sha: Sha, entries: seq<Listed>, files: map<string, Bytes>, data: Bytes)
    requires Staged(sha, entries, files)
    ensures AllSound(sha, entries, files[MANIFEST := data], Plainly) <==> ManifestFits(sha, entries, data)
    ensures AllSound(sha, entries, files[MANIFEST := data], Normal) <==> ManifestFits(sha, entries, data)
  {
    hide SafePath, Normal, Sound;
    assert forall i :: 0 <= i < |entries| ==> Plainly(entries[i].path) == entries[i].path == Normal(entries[i].path);
  }
}
