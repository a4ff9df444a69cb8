/** Context variants for retried context overflows. */
module Context {
  import opened Json
  import opened Workflow

  const EVIDENCE_KEPT := ["snapshot", "portfolio_context", "learning_context"]
  const MINIMAL_KEPT := ["holdings", "quality_gate", "evidence_pack", "input", "codes", "market"]

  /** `text[:end]` with Python's reading of a negative end. */
  function SliceTo(text: string, end: int): string {
    if end >= |text| then text
    else if end >= 0 then text[..end]
    else if |text| + end > 0 then text[..|text| + end]
    else []
  }

  function TrimText(text: string, limit: nat): string {
    if |text| <= limit then text else SliceTo(text, limit - 3) + "..."
  }

  function Truncate(value: Json, listLimit: nat, textLimit: nat): Json {
    match value
    case Str(s) => Str(TrimText(s, textLimit))
    case Obj(fields) =>
      Obj(seq(|fields|, i requires 0 <= i < |fields| =>
        Field(fields[i].key, Truncate(fields[i].value, listLimit, textLimit))))
    case Arr(items) =>
      Arr(seq(if |items| < listLimit then |items| else listLimit, i requires 0 <= i < |items| =>
        Truncate(items[i], listLimit, textLimit)))
    case _ => value
  }

  /** `payload.get("input") or {}` */
  function SourceInput(fields: seq<Field>): Json {
    var input := Get(fields, "input");
    if Falsy(input) then Obj([]) else input
  }

  predicate Falsy(value: Json) {
    value == Null || value == Bool(false) || value == Num(0) || value == Str("") || value == Arr([]) || value == Obj([])
  }

  function Restore(reduced: seq<Field>, source: seq<Field>, keys: seq<string>): seq<Field>
    decreases keys
  {
    if keys == [] then reduced
    else
      var next := if HasKey(source, keys[0]) then Put(reduced, keys[0], Get(source, keys[0])) else reduced;
      Restore(next, source, keys[1..])
  }

  function Keep(fields: seq<Field>, keys: seq<string>): seq<Field> {
    if keys == [] then []
    else
      (if HasKey(fields, keys[0]) then [Field(keys[0], Truncate(Get(fields, keys[0]), 3, 120))] else [])
      + Keep(fields, keys[1..])
  }

  predicate IsEvidence(payload: Json) {
    payload.Obj? && HasKey(payload.fields, "evidence_hash")
  }

  /** An evidence payload carries its frozen input as a dictionary. */
  predicate WellShaped(payload: Json) {
    IsEvidence(payload) ==> SourceInput(payload.fields).Obj?
  }

  function CompressEvidence(fields: seq<Field>, mode: ContextMode): Json
    requires SourceInput(fields).Obj?
  {
    var source := SourceInput(fields);
    var reduced := Truncate(source, if mode == Compressed then 8 else 3, if mode == Compressed then 400 else 120);
    Obj(Put(fields, "input", Obj(Restore(reduced.fields, source.fields, EVIDENCE_KEPT))))
  }

  function CompressPayload(payload: Json, mode: ContextMode): Json
    requires WellShaped(payload)
  {
    if mode == Full || payload == Null then payload
    else if IsEvidence(payload) then CompressEvidence(payload.fields, mode)
    else if mode == Compressed then Truncate(payload, 8, 400)
    else if payload.Obj? then
      var kept := Keep(payload.fields, MINIMAL_KEPT);
      if kept != [] then Obj(kept) else Truncate(payload, 2, 80)
    else Truncate(payload, 2, 80)
  }

  // ----- laws -----

  /** Every text and list in the tree respects the limits, at every depth. */
  ghost predicate Within(value: Json, listLimit: nat, textLimit: nat) {
    match value
    case Str(s) => |s| <= textLimit
    case Obj(fields) => forall i :: 0 <= i < |fields| ==> Within(fields[i].value, listLimit, textLimit)
    case Arr(items) => |items| <= listLimit && forall i :: 0 <= i < |items| ==> Within(items[i], listLimit, textLimit)
    case _ => true
  }

  /** A limit below three is not honoured: the slice end turns negative and the dots are still appended. */
  lemma {:induction false} TrimTextLimit(limit: nat)
    ensures (forall text: string :: |TrimText(text, limit)| <= limit) <==> limit >= 3
  {
    if limit < 3 {
      var long := seq(8, i => 'x');
      assert |TrimText(long, limit)| > limit;
    }
  }

  lemma {:induction false} TruncateWithin(value: Json, listLimit: nat, textLimit: nat)
    requires textLimit >= 3
    ensures Within(Truncate(value, listLimit, textLimit), listLimit, textLimit)
  {
    match value
    case Obj(fields) =>
      forall i | 0 <= i < |fields|
        ensures Within(Truncate(fields[i].value, listLimit, textLimit), listLimit, textLimit)
      {
        TruncateWithin(fields[i].value, listLimit, textLimit);
      }
    case Arr(items) =>
      forall i | 0 <= i < |items|
        ensures Within(Truncate(items[i], listLimit, textLimit), listLimit, textLimit)
      {
        TruncateWithin(items[i], listLimit, textLimit);
      }
    case _ =>
  }

  /** A value already within the limits is returned as it is, so truncation shortens only what is too long. */
  lemma {:induction false} TruncateKeepsShort(value: Json, listLimit: nat, textLimit: nat)
    requires Within(value, listLimit, textLimit)
    ensures Truncate(value, listLimit, textLimit) == value
  {
    match value
    case Obj(fields) =>
      forall i | 0 <= i < |fields|
        ensures Truncate(fields[i].value, listLimit, textLimit) == fields[i].value
      {
        TruncateKeepsShort(fields[i].value, listLimit, textLimit);
      }
      assert Truncate(value, listLimit, textLimit).fields == fields;
    case Arr(items) =>
      forall i | 0 <= i < |items|
        ensures Truncate(items[i], listLimit, textLimit) == items[i]
      {
        TruncateKeepsShort(items[i], listLimit, textLimit);
      }
      assert Truncate(value, listLimit, textLimit).items == items;
    case _ =>
  }

  lemma {:induction false} TruncateIdempotent(value: Json, listLimit: nat, textLimit: nat)
    requires textLimit >= 3
    ensures Truncate(Truncate(value, listLimit, textLimit), listLimit, textLimit) == Truncate(value, listLimit, textLimit)
  {
    TruncateWithin(value, listLimit, textLimit);
    TruncateKeepsShort(Truncate(value, listLimit, textLimit), listLimit, textLimit);
  }

  lemma {:induction false} TighterTrimAbsorbs(text: string, tight: nat, loose: nat)
    requires 3 <= tight <= loose
    ensures TrimText(TrimText(text, loose), tight) == TrimText(text, tight)
  {
    if |text| > loose && tight < loose {
      var once := TrimText(text, loose);
      assert once[..tight - 3] == text[..tight - 3];
    }
  }

  /** Shrinking loosely first and tightly later gives what the tight pass alone gives. */
  lemma {:induction false} TighterAbsorbs(value: Json, list: nat, text: nat, looseList: nat, looseText: nat)
    requires list <= looseList && 3 <= text <= looseText
    ensures Truncate(Truncate(value, looseList, looseText), list, text) == Truncate(value, list, text)
  {
    var once := Truncate(value, looseList, looseText);
    match value
    case Str(s) =>
      TighterTrimAbsorbs(s, text, looseText);
    case Obj(fields) =>
      forall i | 0 <= i < |fields|
        ensures Truncate(once.fields[i].value, list, text) == Truncate(fields[i].value, list, text)
      {
        TighterAbsorbs(fields[i].value, list, text, looseList, looseText);
      }
      assert Truncate(once, list, text).fields == Truncate(value, list, text).fields;
    case Arr(items) =>
      forall i | 0 <= i < |once.items|
        ensures Truncate(once.items[i], list, text) == Truncate(items[i], list, text)
      {
        TighterAbsorbs(items[i], list, text, looseList, looseText);
      }
      assert Truncate(once, list, text).items == Truncate(value, list, text).items;
    case _ =>
  }

  /** Dictionaries keep every key in its place; lists keep a prefix of their items. */
  lemma {:induction false} TruncateKeepsKeys(value: Json, listLimit: nat, textLimit: nat)
    requires value.Obj?
    ensures var cut := Truncate(value, listLimit, textLimit);
            cut.Obj? && |cut.fields| == |value.fields|
            && (forall i :: 0 <= i < |value.fields| ==> cut.fields[i].key == value.fields[i].key)
            && (forall key :: HasKey(cut.fields, key) <==> HasKey(value.fields, key))
            && (forall key :: Get(cut.fields, key) == Truncate(Get(value.fields, key), listLimit, textLimit))
  {
    var cut := Truncate(value, listLimit, textLimit);
    forall key
      ensures HasKey(cut.fields, key) <==> HasKey(value.fields, key)
      ensures Get(cut.fields, key) == Truncate(Get(value.fields, key), listLimit, textLimit)
    {
      SameKeysSameIndex(value.fields, cut.fields, key);
    }
  }

  lemma {:induction false} RestoreGets(reduced: seq<Field>, source: seq<Field>, keys: seq<string>, key: string)
    ensures Get(Restore(reduced, source, keys), key) ==
            if key in keys && HasKey(source, key) then Get(source, key) else Get(reduced, key)
    ensures HasKey(Restore(reduced, source, keys), key) <==> HasKey(reduced, key) || (key in keys && HasKey(source, key))
    decreases keys
  {
    if keys != [] {
      var next := if HasKey(source, keys[0]) then Put(reduced, keys[0], Get(source, keys[0])) else reduced;
      RestoreGets(next, source, keys[1..], key);
      GetAfterPut(reduced, keys[0], Get(source, keys[0]), key);
      assert key in keys <==> key == keys[0] || key in keys[1..];
    }
  }

  /** What an agent reads under `input[key]`. */
  function InputField(payload: Json, key: string): Json {
    var input := if payload.Obj? then Get(payload.fields, "input") else Null;
    if input.Obj? then Get(input.fields, key) else Null
  }

  predicate HasInputField(payload: Json, key: string) {
    payload.Obj? && Get(payload.fields, "input").Obj? && HasKey(Get(payload.fields, "input").fields, key)
  }

  /** In an evidence payload, identity, holdings and constraints survive both shortened modes unchanged; of the input everything
      else is cut, to 8 items and 400 characters or to 3 and 120, and nothing is dropped; beside the input nothing changes. */
  lemma {:induction false} EvidenceSurvives(payload: Json, mode: ContextMode, key: string)
    requires IsEvidence(payload) && WellShaped(payload) && mode != Full
    ensures var small := CompressPayload(payload, mode);
            small.Obj? && Get(small.fields, "input").Obj?
            && (key != "input" ==> Get(small.fields, key) == Get(payload.fields, key)
                                   && (HasKey(small.fields, key) <==> HasKey(payload.fields, key)))
            && (HasInputField(small, key) <==> HasInputField(payload, key))
            && InputField(small, key) ==
               (if key in ["snapshot", "portfolio_context", "learning_context"] then InputField(payload, key)
                else if mode == Compressed then Truncate(InputField(payload, key), 8, 400)
                else Truncate(InputField(payload, key), 3, 120))
  {
    hide Restore, IndexOf, Put;
    var source := SourceInput(payload.fields);
    var lists, texts := if mode == Compressed then 8 else 3, if mode == Compressed then 400 else 120;
    var reduced := Truncate(source, lists, texts);
    var kept := Restore(reduced.fields, source.fields, EVIDENCE_KEPT);
    GetAfterPut(payload.fields, "input", Obj(kept), key);
    GetAfterPut(payload.fields, "input", Obj(kept), "input");
    TruncateKeepsKeys(source, lists, texts);
    RestoreGets(reduced.fields, source.fields, EVIDENCE_KEPT, key);
    EmptyInput(payload.fields, key);
  }

  lemma {:induction false} EmptyInput(fields: seq<Field>, key: string)
    requires SourceInput(fields).Obj?
    ensures var input, source := Get(fields, "input"), SourceInput(fields).fields;
            Get(source, key) == (if input.Obj? then Get(input.fields, key) else Null)
            && (HasKey(source, key) <==> input.Obj? && HasKey(input.fields, key))
  {
  }

  /** Shrinking an already compressed evidence payload to the minimal mode shows the agent the same input. */
  lemma {:induction false} EvidenceMinimalAbsorbsCompressed(payload: Json, key: string)
    requires IsEvidence(payload) && WellShaped(payload)
    ensures var compressed := CompressPayload(payload, Compressed);
            WellShaped(compressed)
            && InputField(CompressPayload(compressed, Minimal), key) == InputField(CompressPayload(payload, Minimal), key)
  {
    var compressed := CompressPayload(payload, Compressed);
    EvidenceSurvives(payload, Compressed, "evidence_hash");
    EvidenceSurvives(payload, Compressed, key);
    EvidenceSurvives(payload, Minimal, key);
    assert IsEvidence(compressed);
    if Falsy(Get(compressed.fields, "input")) {
      assert Get(compressed.fields, "input") == Obj([]);
      assert SourceInput(compressed.fields) == Obj([]);
    }
    EvidenceSurvives(compressed, Minimal, key);
    TighterAbsorbs(InputField(payload, key), 3, 120, 8, 400);
  }

  lemma {:induction false} FirstFieldWins(first: Field, rest: seq<Field>, key: string)
    ensures HasKey([first] + rest, key) <==> key == first.key || HasKey(rest, key)
    ensures HasKey([first] + rest, key) ==> Get([first] + rest, key) == if key == first.key then first.value else Get(rest, key)
  {
    assert ([first] + rest)[1..] == rest;
  }

  lemma {:induction false} KeepGets(fields: seq<Field>, keys: seq<string>, key: string)
    ensures HasKey(Keep(fields, keys), key) <==> key in keys && HasKey(fields, key)
    ensures HasKey(Keep(fields, keys), key) ==> Get(Keep(fields, keys), key) == Truncate(Get(fields, key), 3, 120)
  {
    hide Truncate, IndexOf, HasKey, Get;
    if keys == [] {
      NoFields(key);
    } else {
      var rest := Keep(fields, keys[1..]);
      KeepGets(fields, keys[1..], key);
      FirstFieldWins(Field(keys[0], Truncate(Get(fields, keys[0]), 3, 120)), rest, key);
      assert [] + rest == rest;
      assert key in keys <==> key == keys[0] || key in keys[1..];
    }
  }

  lemma {:induction false} NoFields(key: string)
    ensures !HasKey([], key)
  {
  }

  /** Any other dictionary shrinks, in the minimal mode, to exactly the known sections it has, each cut to 3 items and 120
      characters; without any of them the whole dictionary is cut, to 2 items and 80 characters. */
  lemma {:induction false} MinimalKeepsKnownSections(payload: Json, key: string)
    requires payload.Obj? && !IsEvidence(payload)
    ensures var small := CompressPayload(payload, Minimal);
            var sections := ["holdings", "quality_gate", "evidence_pack", "input", "codes", "market"];
            var known := exists k :: k in sections && HasKey(payload.fields, k);
            && small.Obj?
            && (!known ==> small == Truncate(payload, 2, 80))
            && (known ==> (HasKey(small.fields, key) <==> key in sections && HasKey(payload.fields, key)))
            && (known && HasKey(small.fields, key) ==> Get(small.fields, key) == Truncate(Get(payload.fields, key), 3, 120))
  {
    hide Keep, Truncate;
    var kept := Keep(payload.fields, MINIMAL_KEPT);
    KeepGets(payload.fields, MINIMAL_KEPT, key);
    if kept == [] {
      forall k | k in MINIMAL_KEPT
        ensures !HasKey(payload.fields, k)
      {
        KeepGets(payload.fields, MINIMAL_KEPT, k);
      }
    } else {
      KeepGets(payload.fields, MINIMAL_KEPT, kept[0].key);
      assert HasKey(kept, kept[0].key);
    }
    TruncatedDictionary(payload);
  }

  lemma {:induction false} TruncatedDictionary(payload: Json)
    ensures payload.Obj? ==> Truncate(payload, 2, 80).Obj?
  {
  }

  /** A payload that is no evidence: full, it is left alone; compressed, it keeps to 8 items and 400 characters; minimal and no
      dictionary, to 2 items and 80 characters; and one within the limits is not changed. */
  lemma {:induction false} PlainPayloadsAreCut(payload: Json)
    requires !IsEvidence(payload)
    ensures CompressPayload(payload, Full) == payload
    ensures var small := CompressPayload(payload, Compressed);
            Within(small, 8, 400) && (small == payload <==> Within(payload, 8, 400))
    ensures var small := CompressPayload(payload, Minimal);
            !payload.Obj? ==> Within(small, 2, 80) && (small == payload <==> Within(payload, 2, 80))
  {
    hide Truncate, Within;
    assert payload == Null ==> forall lists, texts :: Within(payload, lists, texts) by { NullIsWithin(payload); }
    TruncateWithin(payload, 8, 400);
    TruncateWithin(payload, 2, 80);
    if Within(payload, 8, 400) {
      TruncateKeepsShort(payload, 8, 400);
    }
    if Within(payload, 2, 80) {
      TruncateKeepsShort(payload, 2, 80);
    }
  }

  lemma {:induction false} NullIsWithin(value: Json)
    ensures value == Null ==> forall lists, texts :: Within(value, lists, texts)
  {
  }

  /** What is cut keeps its beginning: a text ends in dots at the limit, a list keeps its first items, each truncated. */
  lemma {:induction false} TruncateKeepsBeginnings(value: Json, listLimit: nat, textLimit: nat)
    requires textLimit >= 3
    ensures value.Str? && |value.s| > textLimit ==>
              var cut := Truncate(value, listLimit, textLimit).s;
              |cut| == textLimit && cut[..textLimit - 3] == value.s[..textLimit - 3] && cut[textLimit - 3..] == "..."
    ensures value.Arr? ==>
              var cut := Truncate(value, listLimit, textLimit).items;
              |cut| == (if |value.items| < listLimit then |value.items| else listLimit)
              && forall i :: 0 <= i < |cut| ==> cut[i] == Truncate(value.items[i], listLimit, textLimit)
  {
  }
}
