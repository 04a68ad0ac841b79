/** generate-schema.ts: converting a JSON Schema definition (as produced by
    typescript-json-schema) into an OpenAPI `SchemaObject`, and deriving
    schema names from model file paths. */
module GenerateSchema {
  import opened JsStrings

  /** A JSON value. An object is its own enumerable properties in `for...in`
      order; a JavaScript object never has two properties of one name. */
  datatype Json =
    | JUndefined
    | JNull
    | JBool(b: bool)
    | JNum(n: int)
    | JStr(s: string)
    | JArr(elems: seq<Json>)
    | JObj(entries: seq<(string, Json)>)

  /** `!!v` */
  predicate Truthy(v: Json) {
    match v
    case JUndefined => false
    case JNull => false
    case JBool(b) => b
    case JNum(n) => n != 0
    case JStr(s) => s != ""
    case _ => true
  }

  function Keys(entries: seq<(string, Json)>): (keys: seq<string>)
    ensures |keys| == |entries|
    ensures forall i :: 0 <= i < |entries| ==> keys[i] == entries[i].0
  {
    seq(|entries|, i requires 0 <= i < |entries| => entries[i].0)
  }

  predicate DistinctKeys(entries: seq<(string, Json)>) {
    forall i, j :: 0 <= i < j < |entries| ==> entries[i].0 != entries[j].0
  }

  /** `obj[k]`: `undefined` when there is no such property. */
  function Get(entries: seq<(string, Json)>, k: string): (v: Json)
  {
    if entries == [] then JUndefined
    else if entries[0].0 == k then entries[0].1
    else Get(entries[1..], k)
  }

  /** A property that is not there reads as `undefined`. */
  lemma {:induction false} GetAbsent(entries: seq<(string, Json)>, k: string)
    requires k !in Keys(entries)
    ensures Get(entries, k) == JUndefined
  {
    if entries != [] {
      assert Keys(entries) == [entries[0].0] + Keys(entries[1..]);
      GetAbsent(entries[1..], k);
    }
  }

  /** With distinct keys, `obj[k]` is the value of the property named `k`. */
  lemma {:induction false} GetAt(entries: seq<(string, Json)>, i: nat)
    requires DistinctKeys(entries) && i < |entries|
    ensures Get(entries, entries[i].0) == entries[i].1
  {
    if i > 0 {
      assert entries[1..][i - 1] == entries[i];
      GetAt(entries[1..], i - 1);
    }
  }

  /** `obj[k] = v`: an existing property keeps its place, a new one goes
      last. */
  function Set(entries: seq<(string, Json)>, k: string, v: Json): (r: seq<(string, Json)>)
    ensures Keys(r) == if k in Keys(entries) then Keys(entries) else Keys(entries) + [k]
  {
    if entries == [] then [(k, v)]
    else if entries[0].0 == k then [(k, v)] + entries[1..]
    else
      var rest := Set(entries[1..], k, v);
      assert Keys(entries) == [entries[0].0] + Keys(entries[1..]);
      assert Keys([entries[0]] + rest) == [entries[0].0] + Keys(rest);
      [entries[0]] + rest
  }

  /** After `obj[k] = v`, `obj[k]` is `v` and every other property reads as
      before. */
  lemma {:induction false} GetSet(entries: seq<(string, Json)>, k: string, v: Json, k2: string)
    ensures Get(Set(entries, k, v), k2) == if k2 == k then v else Get(entries, k2)
  {
    if entries != [] && entries[0].0 != k {
      GetSet(entries[1..], k, v, k2);
    }
  }

  /** The properties `"0"`, `"1"`, ... of an array-like value. */
  function Indexed(vals: seq<Json>): (r: seq<(string, Json)>)
    ensures |r| == |vals|
    ensures forall i :: 0 <= i < |vals| ==> r[i] == (NatToString(i), vals[i])
  {
    seq(|vals|, i requires 0 <= i < |vals| => (NatToString(i), vals[i]))
  }

  /** What the conversion makes of a string: `for...in` sees its indices,
      and each character is copied. */
  function StringObject(s: string): Json {
    JObj(Indexed(seq(|s|, i requires 0 <= i < |s| => JStr([s[i]]))))
  }

  /** `Array.isArray(v) ? v[0] : v` */
  function FirstIfArray(v: Json): Json {
    if v.JArr? then (if |v.elems| > 0 then v.elems[0] else JUndefined) else v
  }

  const MissingItems := "\"items\" property must be present if \"type\" is an array"

  const AllOfNotIterable := "TypeError: def.allOf is not iterable"

  /** The outcome of `convertToSchemaObject(input)`: the schema and the input
      as it stands afterwards (its `items` are overwritten in place, at every
      level the conversion reaches), or the message of the error thrown. */
  datatype Converted = Converted(schema: Json, after: Json) | Failed(message: string)

  /** The state of the loop over the properties of `def`: the schema built
      so far, `def` as it stands, and the error thrown, if any. */
  datatype ConvState = ConvState(out: seq<(string, Json)>, def: seq<(string, Json)>, failed: Option<string>)

  datatype Option<T> = None | Some(value: T)

  /** The state of a collector loop over elements or members. */
  datatype ElemState = ElemState(results: seq<Json>, afters: seq<Json>, failed: Option<string>)
  datatype MemberState = MemberState(results: seq<(string, Json)>, afters: seq<(string, Json)>, failed: Option<string>)

  /** `convertToSchemaObject(input)`. `for...in` over anything but an object
      sees only index keys (of an array or a string), which are copied. */
  function Convert(input: Json): (r: Converted)
    ensures r.Converted? ==> r.schema.JObj?
    ensures !input.JObj? ==> r.Converted? && r.after == input
    decreases input, 2, 0
  {
    match input
    case JObj(entries) =>
      var s := ConvertEntries(entries, |entries|);
      if s.failed.Some? then Failed(s.failed.value) else Converted(JObj(s.out), JObj(s.def))
    case JArr(elems) => Converted(JObj(Indexed(elems)), input)
    case JStr(s) => Converted(StringObject(s), input)
    case _ => Converted(JObj([]), input)
  }

  /** The loop over the first `n` properties of `def`. */
  function ConvertEntries(entries: seq<(string, Json)>, n: nat): ConvState
    requires n <= |entries|
    decreases JObj(entries), 1, n
  {
    if n == 0 then ConvState([], entries, None)
    else ConvertStep(entries, n - 1, ConvertEntries(entries, n - 1))
  }

  /** What one case of the `switch (property)` does: the value it writes
      into the schema under the property's name (`None`: nothing), the value
      it writes back into `def` under that name (`None`: nothing), or the
      error it throws. */
  datatype Effect = Effect(write: Option<Json>, writeBack: Option<Json>) | Throw(message: string)

  /** The case for property `k` with value `val`; `itemsTruthy` is `!!def.items`
      at that moment. */
  function EntryEffect(k: string, val: Json, itemsTruthy: bool): Effect
    decreases val, 3, 0
  {
    if k == "type" then
      if val == JStr("array") && !itemsTruthy then Throw(MissingItems)
      else Effect(Some(FirstIfArray(val)), None)
    else if k == "allOf" then
      match val
      case JArr(elems) =>
        var c := ElementsFold(elems, |elems|);
        if c.failed.Some? then Throw(c.failed.value)
        else Effect(Some(JArr(c.results)), Some(JArr(c.afters)))
      case JStr(chars) =>
        Effect(Some(JArr(seq(|chars|, j requires 0 <= j < |chars| => StringObject([chars[j]])))), None)
      case _ => Throw(AllOfNotIterable)
    else if k == "properties" then
      match val
      case JObj(members) =>
        var c := MembersFold(members, |members|);
        if c.failed.Some? then Throw(c.failed.value)
        else Effect(Some(JObj(c.results)), Some(JObj(c.afters)))
      case JArr(elems) =>
        var c := ElementsFold(elems, |elems|);
        if c.failed.Some? then Throw(c.failed.value)
        else Effect(Some(JObj(Indexed(c.results))), Some(JArr(c.afters)))
      case JStr(chars) =>
        Effect(Some(JObj(Indexed(seq(|chars|, j requires 0 <= j < |chars| => StringObject([chars[j]]))))), None)
      case _ => Effect(Some(JObj([])), None)
    else if k == "additionalProperties" then
      if !Truthy(val) then Effect(None, None)
      else if val == JBool(true) then Effect(Some(JObj([])), None)
      else
        match Convert(val)
        case Failed(m) => Throw(m)
        case Converted(schema, after) => Effect(Some(schema), Some(after))
    else if k == "items" then
      var c := if val.JArr? && |val.elems| > 0 then Convert(val.elems[0])
               else if val.JArr? then Converted(JObj([]), JUndefined)
               else Convert(val);
      match c
      case Failed(m) => Throw(m)
      case Converted(schema, after) => Effect(Some(schema), Some(after))
    else Effect(Some(val), None)
  }

  /** Carrying out an effect on the loop state, for property `k`. */
  function Apply(s: ConvState, k: string, e: Effect): ConvState {
    match e
    case Throw(m) => s.(failed := Some(m))
    case Effect(write, writeBack) =>
      s.(out := if write.Some? then Set(s.out, k, write.value) else s.out,
         def := if writeBack.Some? then Set(s.def, k, writeBack.value) else s.def)
  }

  /** One turn of the loop: nothing once an error was thrown. */
  function ConvertStep(entries: seq<(string, Json)>, i: nat, s: ConvState): ConvState
    requires i < |entries|
    decreases JObj(entries), 0, 0
  {
    if s.failed.Some? then s
    else Apply(s, entries[i].0, EntryEffect(entries[i].0, entries[i].1, Truthy(Get(s.def, "items"))))
  }

  /** The collector loop over the first `m` elements of an array. */
  function ElementsFold(elems: seq<Json>, m: nat): ElemState
    requires m <= |elems|
    decreases JArr(elems), 1, m
  {
    if m == 0 then ElemState([], [], None)
    else
      var prev := ElementsFold(elems, m - 1);
      if prev.failed.Some? then prev
      else
        match Convert(elems[m - 1])
        case Failed(msg) => prev.(failed := Some(msg))
        case Converted(schema, after) => ElemState(prev.results + [schema], prev.afters + [after], None)
  }

  /** The collector loop over the first `m` members of an object. */
  function MembersFold(members: seq<(string, Json)>, m: nat): MemberState
    requires m <= |members|
    decreases JObj(members), 1, m
  {
    if m == 0 then MemberState([], [], None)
    else
      var prev := MembersFold(members, m - 1);
      if prev.failed.Some? then prev
      else
        var (name, member) := members[m - 1];
        match Convert(member)
        case Failed(msg) => prev.(failed := Some(msg))
        case Converted(schema, after) =>
          MemberState(prev.results + [(name, schema)], prev.afters + [(name, after)], None)
  }

  // ---------------------------------------------------------------------
  // Properties of the conversion

  /** The `items` conversion, as written inline in the loop, is the
      conversion of the first element of an array (or of the value). */
  lemma ItemsConversion(val: Json)
    ensures (if val.JArr? && |val.elems| > 0 then Convert(val.elems[0])
             else if val.JArr? then Converted(JObj([]), JUndefined)
             else Convert(val)) == Convert(FirstIfArray(val))
  {
  }

  /** Once the loop has thrown, the remaining properties change nothing. */
  lemma {:induction false} ConvertErrorSticks(entries: seq<(string, Json)>, m: nat, n: nat)
    requires m <= n <= |entries|
    requires ConvertEntries(entries, m).failed.Some?
    ensures ConvertEntries(entries, n) == ConvertEntries(entries, m)
    decreases n
  {
    if n > m {
      ConvertErrorSticks(entries, m, n - 1);
    }
  }

  lemma {:induction false} ElementsErrorSticks(elems: seq<Json>, m: nat, n: nat)
    requires m <= n <= |elems|
    requires ElementsFold(elems, m).failed.Some?
    ensures ElementsFold(elems, n) == ElementsFold(elems, m)
    decreases n
  {
    if n > m {
      ElementsErrorSticks(elems, m, n - 1);
    }
  }

  lemma {:induction false} MembersErrorSticks(members: seq<(string, Json)>, m: nat, n: nat)
    requires m <= n <= |members|
    requires MembersFold(members, m).failed.Some?
    ensures MembersFold(members, n) == MembersFold(members, m)
    decreases n
  {
    if n > m {
      MembersErrorSticks(members, m, n - 1);
    }
  }

  /** A turn of the loop carries out its case's effect. */
  lemma TurnApplies(entries: seq<(string, Json)>, i: nat, s: ConvState)
    requires i < |entries| && ConvertEntries(entries, i) == s && s.failed.None?
    ensures ConvertEntries(entries, i + 1) ==
            Apply(s, entries[i].0, EntryEffect(entries[i].0, entries[i].1, Truthy(Get(s.def, "items"))))
  {
  }

  /** A turn writes only its own property, in the schema and in `def`. */
  lemma StepTouchesOwnKey(entries: seq<(string, Json)>, i: nat, s: ConvState, k: string)
    requires i < |entries| && k != entries[i].0
    ensures Get(ConvertStep(entries, i, s).out, k) == Get(s.out, k)
    ensures Get(ConvertStep(entries, i, s).def, k) == Get(s.def, k)
  {
    var e := EntryEffect(entries[i].0, entries[i].1, Truthy(Get(s.def, "items")));
    if s.failed.None? && e.Effect? {
      if e.write.Some? {
        GetSet(s.out, entries[i].0, e.write.value, k);
      }
      if e.writeBack.Some? {
        GetSet(s.def, entries[i].0, e.writeBack.value, k);
      }
    }
  }

  /** A turn that throws nothing carries out its case's effect on its own
      property. */
  lemma WrittenAt(entries: seq<(string, Json)>, i: nat)
    requires i < |entries|
    requires ConvertEntries(entries, i + 1).failed.None?
    ensures var s := ConvertEntries(entries, i);
            var e := EntryEffect(entries[i].0, entries[i].1, Truthy(Get(s.def, "items")));
            var t := ConvertEntries(entries, i + 1);
            && s.failed.None? && e.Effect?
            && (e.write.Some? ==> Get(t.out, entries[i].0) == e.write.value)
            && (e.write.None? ==> t.out == s.out)
            && (e.writeBack.Some? ==> Get(t.def, entries[i].0) == e.writeBack.value)
  {
    var s := ConvertEntries(entries, i);
    var e := EntryEffect(entries[i].0, entries[i].1, Truthy(Get(s.def, "items")));
    assert ConvertEntries(entries, i + 1) == ConvertStep(entries, i, s);
    if e.Effect? {
      if e.write.Some? {
        GetSet(s.out, entries[i].0, e.write.value, entries[i].0);
      }
      if e.writeBack.Some? {
        GetSet(s.def, entries[i].0, e.writeBack.value, entries[i].0);
      }
    }
  }

  /** A turn leaves every other property alone. */
  lemma TurnKeepsOthers(entries: seq<(string, Json)>, n: nat, k: string)
    requires 0 < n <= |entries| && k != entries[n - 1].0
    ensures Get(ConvertEntries(entries, n).out, k) == Get(ConvertEntries(entries, n - 1).out, k)
    ensures Get(ConvertEntries(entries, n).def, k) == Get(ConvertEntries(entries, n - 1).def, k)
  {
    StepTouchesOwnKey(entries, n - 1, ConvertEntries(entries, n - 1), k);
  }

  /** Turns on other properties leave property `k` alone. */
  lemma {:induction false} KeptBetween(entries: seq<(string, Json)>, k: string, m: nat, n: nat)
    requires m <= n <= |entries|
    requires forall j :: m <= j < n ==> entries[j].0 != k
    ensures Get(ConvertEntries(entries, n).out, k) == Get(ConvertEntries(entries, m).out, k)
    ensures Get(ConvertEntries(entries, n).def, k) == Get(ConvertEntries(entries, m).def, k)
    decreases n
  {
    if n > m {
      KeptBetween(entries, k, m, n - 1);
      TurnKeepsOthers(entries, n, k);
    }
  }

  /** Later turns leave a property written by an earlier turn alone. */
  lemma OutputKept(entries: seq<(string, Json)>, i: nat, n: nat)
    requires i < n <= |entries|
    requires forall j :: i < j < n ==> entries[j].0 != entries[i].0
    ensures Get(ConvertEntries(entries, n).out, entries[i].0) == Get(ConvertEntries(entries, i + 1).out, entries[i].0)
    ensures Get(ConvertEntries(entries, n).def, entries[i].0) == Get(ConvertEntries(entries, i + 1).def, entries[i].0)
  {
    KeptBetween(entries, entries[i].0, i + 1, n);
  }

  /** A property not reached yet still has its value in `def`. */
  lemma DefUntouched(entries: seq<(string, Json)>, k: string, n: nat)
    requires n <= |entries|
    requires forall j :: 0 <= j < n ==> entries[j].0 != k
    ensures Get(ConvertEntries(entries, n).def, k) == Get(entries, k)
  {
    KeptBetween(entries, k, 0, n);
  }

  /** A loop state without error comes from states without error. */
  lemma {:induction false} NoErrorBefore(entries: seq<(string, Json)>, m: nat, n: nat)
    requires m <= n <= |entries|
    requires ConvertEntries(entries, n).failed.None?
    ensures ConvertEntries(entries, m).failed.None?
  {
    if ConvertEntries(entries, m).failed.Some? {
      ConvertErrorSticks(entries, m, n);
    }
  }

  /** What the schema holds under the name of the `i`-th property, when the
      conversion succeeds. */
  lemma Delivered(entries: seq<(string, Json)>, i: nat)
    requires DistinctKeys(entries)
    requires i < |entries|
    requires Convert(JObj(entries)).Converted?
    ensures var s := ConvertEntries(entries, i);
            var e := EntryEffect(entries[i].0, entries[i].1, Truthy(Get(s.def, "items")));
            var r := Convert(JObj(entries));
            && e.Effect?
            && (e.write.Some? ==> Get(r.schema.entries, entries[i].0) == e.write.value)
            && (e.writeBack.Some? ==> Get(r.after.entries, entries[i].0) == e.writeBack.value)
  {
    NoErrorBefore(entries, i + 1, |entries|);
    WrittenAt(entries, i);
    OutputKept(entries, i, |entries|);
  }

  /** An array `type` becomes its first element; any other `type` is kept. */
  lemma ConvertType(entries: seq<(string, Json)>, i: nat)
    requires DistinctKeys(entries)
    requires i < |entries| && entries[i].0 == "type"
    requires Convert(JObj(entries)).Converted?
    ensures Get(Convert(JObj(entries)).schema.entries, "type") == FirstIfArray(entries[i].1)
  {
    Delivered(entries, i);
  }

  /** A property the conversion does not know is copied as it is. */
  lemma ConvertCopiesOthers(entries: seq<(string, Json)>, i: nat)
    requires DistinctKeys(entries)
    requires i < |entries|
    requires entries[i].0 !in ["type", "allOf", "properties", "additionalProperties", "items"]
    requires Convert(JObj(entries)).Converted?
    ensures Get(Convert(JObj(entries)).schema.entries, entries[i].0) == entries[i].1
  {
    Delivered(entries, i);
  }

  /** `additionalProperties`: `true` becomes `{}`, another truthy value is
      converted, and a falsy one is left out of the schema. */
  lemma ConvertAdditionalProperties(entries: seq<(string, Json)>, i: nat)
    requires DistinctKeys(entries)
    requires i < |entries| && entries[i].0 == "additionalProperties"
    requires Convert(JObj(entries)).Converted?
    ensures var out := Convert(JObj(entries)).schema.entries;
            var val := entries[i].1;
            && (val == JBool(true) ==> Get(out, "additionalProperties") == JObj([]))
            && (Truthy(val) && val != JBool(true) ==>
                  Convert(val).Converted? && Get(out, "additionalProperties") == Convert(val).schema)
            && (!Truthy(val) ==> "additionalProperties" !in Keys(out))
  {
    Delivered(entries, i);
    if !Truthy(entries[i].1) {
      forall j | 0 <= j < |entries| && entries[j].0 == "additionalProperties"
        ensures !Truthy(entries[j].1)
      {
        assert j == i;
      }
      OutKeysOnly(entries, |entries|, "additionalProperties");
    }
  }

  /** The only properties missing from the schema are falsy
      `additionalProperties`. */
  lemma {:induction false} OutKeysOnly(entries: seq<(string, Json)>, n: nat, k: string)
    requires n <= |entries|
    requires forall j :: 0 <= j < |entries| && entries[j].0 == k ==> !Truthy(entries[j].1) && k == "additionalProperties"
    ensures k !in Keys(ConvertEntries(entries, n).out)
    decreases n
  {
    if n > 0 {
      OutKeysOnly(entries, n - 1, k);
      var prev := ConvertEntries(entries, n - 1);
      assert ConvertEntries(entries, n) == ConvertStep(entries, n - 1, prev);
      if entries[n - 1].0 == k {
        assert EntryEffect(entries[n - 1].0, entries[n - 1].1, Truthy(Get(prev.def, "items"))) == Effect(None, None);
      }
    }
  }

  /** Converting an object is running the loop over all its properties. */
  lemma ConvertObject(input: Json)
    requires input.JObj?
    ensures var s := ConvertEntries(input.entries, |input.entries|);
            Convert(input) == if s.failed.Some? then Failed(s.failed.value) else Converted(JObj(s.out), JObj(s.def))
  {
  }

  /** The names the schema gets from the first `n` properties: all of them,
      in order, except a falsy `additionalProperties`. */
  function OutKeys(entries: seq<(string, Json)>, n: nat): seq<string>
    requires n <= |entries|
  {
    if n == 0 then []
    else OutKeys(entries, n - 1) +
         (if entries[n - 1].0 == "additionalProperties" && !Truthy(entries[n - 1].1) then [] else [entries[n - 1].0])
  }

  lemma {:induction false} OutKeysBefore(entries: seq<(string, Json)>, n: nat)
    requires DistinctKeys(entries) && n <= |entries|
    ensures forall j :: n <= j < |entries| ==> entries[j].0 !in OutKeys(entries, n)
  {
    if n > 0 {
      OutKeysBefore(entries, n - 1);
    }
  }

  /** A case writes nothing into the schema only for a falsy
      `additionalProperties`. */
  lemma WritesUnlessDropped(k: string, val: Json, itemsTruthy: bool)
    requires EntryEffect(k, val, itemsTruthy).Effect?
    ensures EntryEffect(k, val, itemsTruthy).write.None? <==> k == "additionalProperties" && !Truthy(val)
  {
  }

  lemma {:induction false} KeysUpTo(entries: seq<(string, Json)>, n: nat)
    requires DistinctKeys(entries) && n <= |entries|
    requires ConvertEntries(entries, n).failed.None?
    ensures Keys(ConvertEntries(entries, n).out) == OutKeys(entries, n)
  {
    if n > 0 {
      NoErrorBefore(entries, n - 1, n);
      KeysUpTo(entries, n - 1);
      OutKeysBefore(entries, n - 1);
      var s := ConvertEntries(entries, n - 1);
      TurnApplies(entries, n - 1, s);
      WritesUnlessDropped(entries[n - 1].0, entries[n - 1].1, Truthy(Get(s.def, "items")));
    }
  }

  /** The schema has the properties of the definition, in the same order,
      except a falsy `additionalProperties`. */
  lemma ConvertKeys(entries: seq<(string, Json)>)
    requires DistinctKeys(entries)
    requires Convert(JObj(entries)).Converted?
    ensures Keys(Convert(JObj(entries)).schema.entries) == OutKeys(entries, |entries|)
  {
    ConvertObject(JObj(entries));
    KeysUpTo(entries, |entries|);
  }

  /** `items`: an array keeps only its first element; the schema holds the
      conversion of what is kept, and the input's `items` is overwritten
      with it (as the conversion left it). */
  lemma ConvertItems(entries: seq<(string, Json)>, i: nat)
    requires DistinctKeys(entries)
    requires i < |entries| && entries[i].0 == "items"
    requires Convert(JObj(entries)).Converted?
    ensures var r := Convert(JObj(entries));
            var c := Convert(FirstIfArray(entries[i].1));
            && c.Converted?
            && Get(r.schema.entries, "items") == c.schema
            && Get(r.after.entries, "items") == c.after
  {
    Delivered(entries, i);
    ItemsConversion(entries[i].1);
  }

  /** Converting the elements of an array keeps their number and order. */
  lemma {:induction false} ElementsFoldResults(elems: seq<Json>, m: nat)
    requires m <= |elems|
    requires ElementsFold(elems, m).failed.None?
    ensures |ElementsFold(elems, m).results| == m
    ensures forall j :: 0 <= j < m ==>
              Convert(elems[j]).Converted? && ElementsFold(elems, m).results[j] == Convert(elems[j]).schema
  {
    if m > 0 {
      ElementsFoldResults(elems, m - 1);
    }
  }

  /** Converting the members of an object keeps their names and order. */
  lemma {:induction false} MembersFoldResults(members: seq<(string, Json)>, m: nat)
    requires m <= |members|
    requires MembersFold(members, m).failed.None?
    ensures |MembersFold(members, m).results| == m
    ensures forall j :: 0 <= j < m ==>
              Convert(members[j].1).Converted? &&
              MembersFold(members, m).results[j] == (members[j].0, Convert(members[j].1).schema)
  {
    if m > 0 {
      MembersFoldResults(members, m - 1);
    }
  }

  /** `allOf` is converted element by element. */
  lemma ConvertAllOf(entries: seq<(string, Json)>, i: nat)
    requires DistinctKeys(entries)
    requires i < |entries| && entries[i].0 == "allOf" && entries[i].1.JArr?
    requires Convert(JObj(entries)).Converted?
    ensures var out := Get(Convert(JObj(entries)).schema.entries, "allOf");
            var elems := entries[i].1.elems;
            && out.JArr? && |out.elems| == |elems|
            && forall j :: 0 <= j < |elems| ==> Convert(elems[j]).Converted? && out.elems[j] == Convert(elems[j]).schema
  {
    Delivered(entries, i);
    var elems := entries[i].1.elems;
    assert ElementsFold(elems, |elems|).failed.None?;
    ElementsFoldResults(elems, |elems|);
  }

  /** `properties` is converted member by member, keeping the names. */
  lemma ConvertProperties(entries: seq<(string, Json)>, i: nat)
    requires DistinctKeys(entries)
    requires i < |entries| && entries[i].0 == "properties" && entries[i].1.JObj?
    requires Convert(JObj(entries)).Converted?
    ensures var out := Get(Convert(JObj(entries)).schema.entries, "properties");
            var members := entries[i].1.entries;
            && out.JObj? && Keys(out.entries) == Keys(members)
            && forall j :: 0 <= j < |members| ==>
                 Convert(members[j].1).Converted? && out.entries[j].1 == Convert(members[j].1).schema
  {
    Delivered(entries, i);
    var members := entries[i].1.entries;
    assert MembersFold(members, |members|).failed.None?;
    MembersFoldResults(members, |members|);
  }

  /** Converting a falsy `items` writes it back unchanged. */
  lemma FalsyItemsWrittenBack(entries: seq<(string, Json)>, j: nat)
    requires j < |entries| && entries[j].0 == "items" && !Truthy(entries[j].1)
    requires ConvertEntries(entries, j + 1).failed.None?
    ensures Get(ConvertEntries(entries, j + 1).def, "items") == entries[j].1
  {
    WrittenAt(entries, j);
    FalsyItemsEffect(entries[j].1, Truthy(Get(ConvertEntries(entries, j).def, "items")));
  }

  lemma FalsyItemsEffect(val: Json, itemsTruthy: bool)
    requires !Truthy(val)
    ensures EntryEffect("items", val, itemsTruthy) == Effect(Some(JObj([])), Some(val))
  {
  }

  /** A falsy `items` stays falsy in `def` throughout the loop. */
  lemma ItemsStayFalsy(entries: seq<(string, Json)>, n: nat)
    requires DistinctKeys(entries)
    requires n <= |entries|
    requires !Truthy(Get(entries, "items"))
    requires ConvertEntries(entries, n).failed.None?
    ensures !Truthy(Get(ConvertEntries(entries, n).def, "items"))
  {
    if j :| 0 <= j < n && entries[j].0 == "items" {
      GetAt(entries, j);
      NoErrorBefore(entries, j + 1, n);
      FalsyItemsWrittenBack(entries, j);
      OutputKept(entries, j, n);
    } else {
      DefUntouched(entries, "items", n);
    }
  }

  /** A definition whose `type` is `"array"` and whose `items` is missing
      or falsy is refused, wherever `items` stands. */
  lemma ConvertArrayNeedsItems(entries: seq<(string, Json)>)
    requires DistinctKeys(entries)
    requires Get(entries, "type") == JStr("array")
    requires !Truthy(Get(entries, "items"))
    ensures Convert(JObj(entries)).Failed?
  {
    if Convert(JObj(entries)).Converted? {
      if "type" !in Keys(entries) {
        GetAbsent(entries, "type");
      }
      var i :| 0 <= i < |entries| && Keys(entries)[i] == "type";
      GetAt(entries, i);
      NoErrorBefore(entries, i + 1, |entries|);
      NoErrorBefore(entries, i, |entries|);
      ItemsStayFalsy(entries, i);
      TurnApplies(entries, i, ConvertEntries(entries, i));
      ArrayWithoutItemsThrows();
    }
  }

  lemma ArrayWithoutItemsThrows()
    ensures EntryEffect("type", JStr("array"), false) == Throw(MissingItems)
  {
  }

  /** `convertToSchemaObject(input)`: a loop over the properties of `def`
      that fills the schema object property by property; an error thrown by
      a case ends it. */
  method ConvertToSchemaObject(input: Json) returns (r: Converted)
    ensures r == Convert(input)
    decreases input, 2
  {
    if !input.JObj? {
      return Convert(input);
    }
    var entries := input.entries;
    var emptySchemaObj: seq<(string, Json)> := [];
    var def := entries;
    for i := 0 to |entries|
      invariant ConvertEntries(entries, i) == ConvState(emptySchemaObj, def, None)
    {
      var (property, val) := entries[i];
      var e := ConvertProperty(property, val, Truthy(Get(def, "items")));
      TurnApplies(entries, i, ConvState(emptySchemaObj, def, None));
      assert ConvertEntries(entries, i + 1) == Apply(ConvState(emptySchemaObj, def, None), property, e);
      if e.Throw? {
        ConvertErrorSticks(entries, i + 1, |entries|);
        ConvertObject(input);
        return Failed(e.message);
      }
      if e.write.Some? {
        emptySchemaObj := Set(emptySchemaObj, property, e.write.value);
      }
      if e.writeBack.Some? {
        def := Set(def, property, e.writeBack.value);
      }
    }
    ConvertObject(input);
    r := Converted(JObj(emptySchemaObj), JObj(def));
  }

  /** One case of the `switch (property)`; `itemsTruthy` is `!!def.items`. */
  method ConvertProperty(property: string, val: Json, itemsTruthy: bool) returns (e: Effect)
    ensures e == EntryEffect(property, val, itemsTruthy)
    decreases val, 3
  {
    if property == "type" {
      if val == JStr("array") && !itemsTruthy {
        return Throw(MissingItems);
      }
      return Effect(Some(FirstIfArray(val)), None);
    } else if property == "allOf" {
      if val.JArr? {
        var c := CollectElements(val.elems);
        if c.failed.Some? {
          return Throw(c.failed.value);
        }
        return Effect(Some(JArr(c.results)), Some(JArr(c.afters)));
      } else if val.JStr? {
        return Effect(Some(JArr(seq(|val.s|, j requires 0 <= j < |val.s| => StringObject([val.s[j]])))), None);
      } else {
        return Throw(AllOfNotIterable);
      }
    } else if property == "properties" {
      if val.JObj? {
        var c := CollectMembers(val.entries);
        if c.failed.Some? {
          return Throw(c.failed.value);
        }
        return Effect(Some(JObj(c.results)), Some(JObj(c.afters)));
      } else if val.JArr? {
        var c := CollectElements(val.elems);
        if c.failed.Some? {
          return Throw(c.failed.value);
        }
        return Effect(Some(JObj(Indexed(c.results))), Some(JArr(c.afters)));
      } else if val.JStr? {
        return Effect(Some(JObj(Indexed(seq(|val.s|, j requires 0 <= j < |val.s| => StringObject([val.s[j]]))))), None);
      } else {
        return Effect(Some(JObj([])), None);
      }
    } else if property == "additionalProperties" {
      if !Truthy(val) {
        return Effect(None, None);
      } else if val == JBool(true) {
        return Effect(Some(JObj([])), None);
      }
      var c := ConvertToSchemaObject(val);
      if c.Failed? {
        return Throw(c.message);
      }
      return Effect(Some(c.schema), Some(c.after));
    } else if property == "items" {
      // `def.items` is replaced by its first element, which the conversion
      // then updates in place
      var c;
      if val.JArr? && |val.elems| > 0 {
        c := ConvertToSchemaObject(val.elems[0]);
      } else if val.JArr? {
        c := Converted(JObj([]), JUndefined);
      } else {
        c := ConvertToSchemaObject(val);
      }
      if c.Failed? {
        return Throw(c.message);
      }
      return Effect(Some(c.schema), Some(c.after));
    } else {
      return Effect(Some(val), None);
    }
  }

  /** The collector loop of `allOf` (and of an array-valued `properties`):
      each element converted in turn. */
  method CollectElements(elems: seq<Json>) returns (c: ElemState)
    ensures c == ElementsFold(elems, |elems|)
    decreases JArr(elems), 1
  {
    var collector: seq<Json> := [];
    var afters: seq<Json> := [];
    for j := 0 to |elems|
      invariant ElementsFold(elems, j) == ElemState(collector, afters, None)
    {
      var r := ConvertToSchemaObject(elems[j]);
      if r.Failed? {
        ElementsErrorSticks(elems, j + 1, |elems|);
        return ElemState(collector, afters, Some(r.message));
      }
      collector := collector + [r.schema];
      afters := afters + [r.after];
    }
    c := ElemState(collector, afters, None);
  }

  /** The collector loop of `properties`: each member converted in turn,
      under its own name. */
  method CollectMembers(members: seq<(string, Json)>) returns (c: MemberState)
    ensures c == MembersFold(members, |members|)
    decreases JObj(members), 1
  {
    var collector: seq<(string, Json)> := [];
    var afters: seq<(string, Json)> := [];
    for j := 0 to |members|
      invariant MembersFold(members, j) == MemberState(collector, afters, None)
    {
      var (name, member) := members[j];
      var r := ConvertToSchemaObject(member);
      if r.Failed? {
        MembersErrorSticks(members, j + 1, |members|);
        return MemberState(collector, afters, Some(r.message));
      }
      collector := collector + [(name, r.schema)];
      afters := afters + [(name, r.after)];
    }
    c := MemberState(collector, afters, None);
  }

  // ---------------------------------------------------------------------
  // Schema names

  /** The schema name `getSchemaNames` derives from one path: the text after
      the last `/` with its final character dropped, cut at its first `.`;
      `index` gives `''`, any other stem is capitalized. */
  function SchemaName(p: string): string {
    var stem := Stem(FileName(p));
    if stem == "index" then "" else Capitalize(stem)
  }

  /** The text after the last `/` of a path, with its final character
      dropped. */
  function FileName(p: string): string {
    Substring(p, LastIndexOfChar(p, '/') + 1, |p| - 1)
  }

  /** The text before the first `.` of a file name; empty when there is
      none, since `substring(0, -1)` is `substring(0, 0)`. */
  function Stem(fileName: string): string {
    Substring(fileName, 0, IndexOf(fileName, "."))
  }

  /** `getSchemaNames(paths)`: the names of the paths, empty ones dropped
      (`_.compact`). */
  function GetSchemaNames(paths: seq<string>): (names: seq<string>)
    ensures paths == [] ==> names == []
    ensures |names| <= |paths|
    ensures forall i :: 0 <= i < |names| ==> names[i] != ""
  {
    if paths == [] then []
    else
      var rest := GetSchemaNames(paths[1..]);
      var name := SchemaName(paths[0]);
      if name == "" then rest else [name] + rest
  }

  /** Every path whose name is not empty contributes it, in order: the
      names are exactly the non-empty names of the paths. */
  lemma {:induction false} SchemaNamesKeepOrder(paths: seq<string>, p: string)
    ensures GetSchemaNames(paths + [p]) ==
            GetSchemaNames(paths) + (if SchemaName(p) == "" then [] else [SchemaName(p)])
    decreases |paths|
  {
    if paths != [] {
      assert (paths + [p])[1..] == paths[1..] + [p];
      SchemaNamesKeepOrder(paths[1..], p);
    } else {
      assert GetSchemaNames([p][1..]) == [];
    }
  }

  /** The last `/` of `<dir>/<name>` is the one ending `dir`. */
  lemma LastSlash(dir: string, name: string)
    requires dir == [] || dir[|dir| - 1] == '/'
    requires '/' !in name
    ensures LastIndexOfChar(dir + name, '/') == |dir| - 1
  {
    var p := dir + name;
    var r := LastIndexOfChar(p, '/');
    forall i | |dir| <= i < |p| ensures p[i] != '/' {
      assert p[i] == name[i - |dir|];
    }
    if dir != [] {
      assert p[|dir| - 1] == '/';
    }
  }

  /** The first `.` of `<stem>.<rest>` ends the stem, so the text before
      it is the stem. */
  lemma StemBeforeDot(stem: string, rest: string)
    requires '.' !in stem
    ensures Stem(stem + "." + rest) == stem
  {
    var f := stem + "." + rest;
    assert OccursAt(f, ".", |stem|) by {
      assert f[|stem|..|stem| + 1] == ".";
    }
    forall i | 0 <= i < |stem| ensures !OccursAt(f, ".", i) {
      assert f[i] == stem[i];
    }
    assert f[..|stem|] == stem;
  }

  /** The file name `getSchemaNames` takes from `<dir>/<name>`: `name`
      without its final character. */
  lemma FileNameOf(dir: string, name: string)
    requires dir == [] || dir[|dir| - 1] == '/'
    requires '/' !in name && |name| >= 1
    ensures FileName(dir + name) == name[..|name| - 1]
  {
    var p := dir + name;
    LastSlash(dir, name);
    assert p[|dir|..|p| - 1] == name[..|name| - 1];
  }

  /** A model file `<dir>/<stem>.<rest>` is named after its capitalized
      stem, and `index` files are dropped. */
  lemma SchemaNameOfFile(dir: string, stem: string, rest: string)
    requires dir == [] || dir[|dir| - 1] == '/'
    requires '/' !in stem && '/' !in rest && '.' !in stem
    requires |rest| >= 1
    ensures SchemaName(dir + stem + "." + rest) == if stem == "index" then "" else Capitalize(stem)
  {
    var name := stem + "." + rest;
    var p := dir + stem + "." + rest;
    assert p == dir + name;
    assert '/' !in name;
    FileNameOf(dir, name);
    var cut := stem + "." + rest[..|rest| - 1];
    assert name[..|name| - 1] == cut;
    StemBeforeDot(stem, rest[..|rest| - 1]);
  }
}
