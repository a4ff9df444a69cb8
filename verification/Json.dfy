/** JSON trees as the workflow stores them: dictionaries keep their insertion order. */
module Json {

  datatype Json =
    | Null
    | Bool(b: bool)
    | Num(n: int)
    | Str(s: string)
    | Arr(items: seq<Json>)
    | Obj(fields: seq<Field>)

  datatype Field = Field(key: string, value: Json)

  /** Position of `key` in a dictionary, or the number of fields when it is absent. */
  function IndexOf(fields: seq<Field>, key: string): (i: nat)
    ensures i <= |fields|
    ensures i < |fields| ==> fields[i].key == key
    ensures forall j :: 0 <= j < i ==> fields[j].key != key
  {
    if fields == [] || fields[0].key == key then 0 else 1 + IndexOf(fields[1..], key)
  }

  predicate HasKey(fields: seq<Field>, key: string) {
    IndexOf(fields, key) < |fields|
  }

  /** `dict.get(key)`, with JSON null for an absent key. */
  function Get(fields: seq<Field>, key: string): Json {
    if HasKey(fields, key) then fields[IndexOf(fields, key)].value else Null
  }

  /** `dict[key] = value`: an existing key keeps its place, a new one goes last. */
  function Put(fields: seq<Field>, key: string, value: Json): seq<Field> {
    if HasKey(fields, key) then fields[IndexOf(fields, key) := Field(key, value)] else fields + [Field(key, value)]
  }

  predicate DistinctKeys(fields: seq<Field>) {
    forall i, j :: 0 <= i < j < |fields| ==> fields[i].key != fields[j].key
  }

  lemma {:induction false} IndexOfIsUnique(fields: seq<Field>, i: nat)
    requires i < |fields| && DistinctKeys(fields)
    ensures IndexOf(fields, fields[i].key) == i
  {
  }

  lemma {:induction false} GetAfterPut(fields: seq<Field>, key: string, value: Json, other: string)
    ensures Get(Put(fields, key, value), other) == if other == key then value else Get(fields, other)
    ensures HasKey(Put(fields, key, value), other) <==> other == key || HasKey(fields, other)
  {
    var put := Put(fields, key, value);
    if HasKey(fields, key) {
      var at := IndexOf(fields, key);
      assert put[at].key == key;
      assert forall j :: 0 <= j < |fields| ==> put[j].key == fields[j].key;
      SameKeysSameIndex(fields, put, other);
      SameKeysSameIndex(fields, put, key);
    } else {
      AppendIndex(fields, Field(key, value), other);
    }
  }

  lemma {:induction false} SameKeysSameIndex(left: seq<Field>, right: seq<Field>, key: string)
    requires |left| == |right|
    requires forall j :: 0 <= j < |left| ==> left[j].key == right[j].key
    ensures IndexOf(left, key) == IndexOf(right, key)
  {
    if left != [] && left[0].key != key {
      SameKeysSameIndex(left[1..], right[1..], key);
    }
  }

  lemma {:induction false} AppendIndex(fields: seq<Field>, last: Field, key: string)
    ensures IndexOf(fields + [last], key) ==
            if HasKey(fields, key) then IndexOf(fields, key) else if last.key == key then |fields| else |fields| + 1
  {
    if fields != [] && fields[0].key != key {
      assert (fields + [last])[1..] == fields[1..] + [last];
      AppendIndex(fields[1..], last, key);
    }
  }
}
