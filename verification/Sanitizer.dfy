/** The sanitizer of the audit log: a walk over a JavaScript object graph, possibly shared or cyclic, that
    threads a set of the objects already met and blots out the values of sensitive keys. */
module Sanitizer {
  // ----- JavaScript values and JSON -----

  type Ref = nat

  datatype Scalar = Text(text: string) | Number(n: real) | Boolean(b: bool)

  datatype Field<+V> = Field(key: string, value: V)

  datatype Value =
    | Null
    | Undefined
    | Plain(scalar: Scalar)
    | BigInt(digits: string)
    | Symbol(description: string)
    | Function(name: string)
    | Object(ref: Ref)

  /** `Custom` is an object with a toJSON method, together with what that method returns. */
  datatype Node = Array(items: seq<Value>) | Record(fields: seq<Field<Value>>) | Custom(toJson: Value)

  /** JavaScript has no dangling references; one missing here counts as null. */
  type Heap = map<Ref, Node>

  datatype Json = JNull | JScalar(scalar: Scalar) | JArray(items: seq<Json>) | JObject(fields: seq<Field<Json>>)

  const REDACTED := JScalar(Text("[REDACTED]"))
  const CIRCULAR := JScalar(Text("[Circular]"))

  const SENSITIVE_KEYS := {
    "password", "passwordhash", "currentpassword", "newpassword", "token", "tokenhash", "key", "keyhash", "secret",
    "authorization", "cookie", "refreshtoken", "accesstoken"
  }

  const KELVIN := '\U{212A}'

  /** toLowerCase as far as it can produce an ASCII letter: the only letter outside ASCII that does is the
      Kelvin sign. */
  function LowerChar(c: char): char {
    if 'A' <= c <= 'Z' then c - 'A' + 'a' else if c == KELVIN then 'k' else c
  }

  function ToLower(s: string): string {
    seq(|s|, i requires 0 <= i < |s| => LowerChar(s[i]))
  }

  predicate Sensitive(key: string) { ToLower(key) in SENSITIVE_KEYS }

  // ----- the walk -----

  function Leaf(v: Value): Json {
    match v
    case Plain(scalar) => JScalar(scalar)
    case BigInt(digits) => JScalar(Text(digits))
    case Symbol(description) => JScalar(Text("Symbol(" + description + ")"))
    case Function(name) => JScalar(Text("[Function: " + (if name == "" then "anonymous" else name) + "]"))
    case _ => JNull
  }

  function San(h: Heap, v: Value, seen: set<Ref>): (r: (Json, set<Ref>))
    ensures seen <= r.1
    decreases h.Keys - seen, 0
  {
    if !v.Object? || v.ref !in h then (Leaf(v), seen)
    else if v.ref in seen then (CIRCULAR, seen)
    else
      match h[v.ref]
      case Custom(json) => San(h, json, seen + {v.ref})
      case Array(items) => var (js, after) := SanItems(h, items, seen + {v.ref}); (JArray(js), after)
      case Record(fields) => var (js, after) := SanFields(h, fields, seen + {v.ref}); (JObject(js), after)
  }

  function SanItems(h: Heap, items: seq<Value>, seen: set<Ref>): (r: (seq<Json>, set<Ref>))
    ensures seen <= r.1
    decreases h.Keys - seen, |items|
  {
    if items == [] then ([], seen)
    else
      var (j, after) := San(h, items[0], seen);
      var (js, final) := SanItems(h, items[1..], after);
      ([j] + js, final)
  }

  function SanFields(h: Heap, fields: seq<Field<Value>>, seen: set<Ref>): (r: (seq<Field<Json>>, set<Ref>))
    ensures seen <= r.1
    decreases h.Keys - seen, |fields|
  {
    if fields == [] then ([], seen)
    else
      var key := fields[0].key;
      var (j, after) := if Sensitive(key) then (REDACTED, seen) else San(h, fields[0].value, seen);
      var (js, final) := SanFields(h, fields[1..], after);
      ([Field(key, j)] + js, final)
  }

  // ----- the code: one mutable set, shared by the whole walk -----

  class SeenSet {
    var refs: set<Ref>

    constructor ()
      ensures refs == {}
    {
      refs := {};
    }
  }

  method Sanitize(h: Heap, v: Value, seen: SeenSet) returns (out: Json)
    modifies seen
    ensures (out, seen.refs) == San(h, v, old(seen.refs))
    decreases h.Keys - seen.refs, 0
  {
    if !v.Object? || v.ref !in h {
      return Leaf(v);
    }
    if v.ref in seen.refs {
      return CIRCULAR;
    }
    seen.refs := seen.refs + {v.ref};
    match h[v.ref] {
      case Custom(json) =>
        out := Sanitize(h, json, seen);
      case Array(items) =>
        var js := SanitizeItems(h, items, seen);
        out := JArray(js);
      case Record(fields) =>
        var js := SanitizeFields(h, fields, seen);
        out := JObject(js);
    }
  }

  method SanitizeItems(h: Heap, items: seq<Value>, seen: SeenSet) returns (js: seq<Json>)
    modifies seen
    ensures (js, seen.refs) == SanItems(h, items, old(seen.refs))
    decreases h.Keys - seen.refs, 1
  {
    hide San;
    js := [];
    ghost var spec := SanItems(h, items, seen.refs);
    assert items[0..] == items && js + spec.0 == spec.0;
    for i := 0 to |items|
      invariant old(seen.refs) <= seen.refs
      invariant spec == (js + SanItems(h, items[i..], seen.refs).0, SanItems(h, items[i..], seen.refs).1)
    {
      ghost var rest := SanItems(h, items[i..], seen.refs);
      var j := Sanitize(h, items[i], seen);
      assert items[i..][1..] == items[i + 1..];
      assert js + rest.0 == js + [j] + SanItems(h, items[i + 1..], seen.refs).0;
      js := js + [j];
    }
    assert items[|items|..] == [] && js + [] == js;
  }

  method SanitizeFields(h: Heap, fields: seq<Field<Value>>, seen: SeenSet) returns (js: seq<Field<Json>>)
    modifies seen
    ensures (js, seen.refs) == SanFields(h, fields, old(seen.refs))
    decreases h.Keys - seen.refs, 1
  {
    hide San, SanFields;
    js := [];
    ghost var spec := SanFields(h, fields, seen.refs);
    assert fields[0..] == fields && js + spec.0 == spec.0;
    for i := 0 to |fields|
      invariant old(seen.refs) <= seen.refs
      invariant spec == (js + SanFields(h, fields[i..], seen.refs).0, SanFields(h, fields[i..], seen.refs).1)
    {
      FieldsFrom(h, fields, i, seen.refs);
      ghost var rest := SanFields(h, fields[i..], seen.refs);
      var j := REDACTED;
      if ToLower(fields[i].key) !in SENSITIVE_KEYS {
        j := Sanitize(h, fields[i].value, seen);
      }
      assert js + rest.0 == js + [Field(fields[i].key, j)] + SanFields(h, fields[i + 1..], seen.refs).0;
      js := js + [Field(fields[i].key, j)];
    }
    NoFields(h, seen.refs);
    assert fields[|fields|..] == [] && js + [] == js;
  }

  lemma FieldsFrom(h: Heap, fields: seq<Field<Value>>, i: nat, seen: set<Ref>)
    requires i < |fields|
    ensures var (j, after) := if Sensitive(fields[i].key) then (REDACTED, seen) else San(h, fields[i].value, seen);
            var (js, final) := SanFields(h, fields[i + 1..], after);
            SanFields(h, fields[i..], seen) == ([Field(fields[i].key, j)] + js, final)
  {
    assert fields[i..][1..] == fields[i + 1..];
  }

  lemma NoFields(h: Heap, seen: set<Ref>)
    ensures SanFields(h, [], seen) == ([], seen)
  {
  }

  /** The payload stored for an entry, before it is cut to size. */
  datatype AuditAction = Create | Update | Delete

  function Changes(action: AuditAction, h: Heap, request: Value, response: Value): Json {
    var after := San(h, response, {}).0;
    match action
    case Create => JObject([Field("after", after)])
    case Update => JObject([Field("requestedChanges", San(h, request, {}).0), Field("after", after)])
    case Delete => JObject([Field("before", after)])
  }

  method BuildChanges(action: AuditAction, h: Heap, request: Value, response: Value) returns (changes: Json)
    ensures changes == Changes(action, h, request, response)
  {
    var requested := JNull;
    if action.Update? {
      var seenInRequest := new SeenSet();
      requested := Sanitize(h, request, seenInRequest);
    }
    var seen := new SeenSet();
    var body := Sanitize(h, response, seen);
    changes := match action
      case Create => JObject([Field("after", body)])
      case Update => JObject([Field("requestedChanges", requested), Field("after", body)])
      case Delete => JObject([Field("before", body)]);
  }

  /** Two symbols, or two numbers too large for JSON, print alike exactly if they are the same; a nameless function prints
      like one called "anonymous", and nothing else is confused. */
  lemma PrimitivesPrintApart(v: Value, w: Value)
    requires (v.BigInt? && w.BigInt?) || (v.Symbol? && w.Symbol?) || (v.Function? && w.Function?)
    ensures Leaf(v) == Leaf(w) <==> v == w || (v.Function? && {v.name, w.name} == {"", "anonymous"})
    ensures v.BigInt? ==> Leaf(v) == JScalar(Text(v.digits))
  {
    match (v, w) {
      case (Symbol(a), Symbol(b)) => Wrapped("Symbol(", a, b, ")");
      case (Function(a), Function(b)) =>
        Wrapped("[Function: ", if a == "" then "anonymous" else a, if b == "" then "anonymous" else b, "]");
      case _ =>
    }
  }

  lemma Wrapped(left: string, a: string, b: string, right: string)
    ensures left + a + right == left + b + right <==> a == b
  {
    if left + a + right == left + b + right {
      assert a == (left + a + right)[|left|..|left + a + right| - |right|];
      assert b == (left + b + right)[|left|..|left + b + right| - |right|];
    }
  }

  // ----- nothing sensitive is left -----

  /** Every sensitive key, at every depth, holds the redaction string. */
  predicate Clean(j: Json) {
    match j
    case JArray(items) => forall i | 0 <= i < |items| :: Clean(items[i])
    case JObject(fields) =>
      forall i | 0 <= i < |fields| ::
        if Sensitive(fields[i].key) then fields[i].value == JScalar(Text("[REDACTED]")) else Clean(fields[i].value)
    case _ => true
  }

  predicate CleanItems(items: seq<Json>) { forall i | 0 <= i < |items| :: Clean(items[i]) }

  predicate CleanFields(fields: seq<Field<Json>>) { Clean(JObject(fields)) }

  lemma {:induction false} OutputIsClean(h: Heap, v: Value, seen: set<Ref>)
    ensures Clean(San(h, v, seen).0)
    decreases h.Keys - seen, 0
  {
    if v.Object? && v.ref in h && v.ref !in seen {
      match h[v.ref] {
        case Custom(json) => OutputIsClean(h, json, seen + {v.ref});
        case Array(items) => ItemsAreClean(h, items, seen + {v.ref});
        case Record(fields) => FieldsAreClean(h, fields, seen + {v.ref});
      }
    }
  }

  lemma {:induction false} ItemsAreClean(h: Heap, items: seq<Value>, seen: set<Ref>)
    ensures CleanItems(SanItems(h, items, seen).0)
    decreases h.Keys - seen, |items|
  {
    if items != [] {
      OutputIsClean(h, items[0], seen);
      ItemsAreClean(h, items[1..], San(h, items[0], seen).1);
    }
  }

  lemma {:induction false} FieldsAreClean(h: Heap, fields: seq<Field<Value>>, seen: set<Ref>)
    ensures CleanFields(SanFields(h, fields, seen).0)
    decreases h.Keys - seen, |fields|
  {
    if fields != [] {
      if Sensitive(fields[0].key) {
        FieldsAreClean(h, fields[1..], seen);
      } else {
        OutputIsClean(h, fields[0].value, seen);
        FieldsAreClean(h, fields[1..], San(h, fields[0].value, seen).1);
      }
    }
  }

  // ----- the walk prints the redacted reading of the graph exactly if it meets nothing twice -----

  function Redact(j: Json): Json {
    match j
    case JArray(items) => JArray(seq(|items|, i requires 0 <= i < |items| => Redact(items[i])))
    case JObject(fields) =>
      JObject(seq(|fields|, i requires 0 <= i < |fields| =>
        Field(fields[i].key, if Sensitive(fields[i].key) then REDACTED else Redact(fields[i].value))))
    case _ => j
  }

  /** The graph at `v` reads as the JSON tree `j`, however often objects are shared. Nothing is said of what lies
      below a sensitive key. A cycle has no reading; `chain` holds the objects whose toJSON is being followed. */
  predicate Unfolds(h: Heap, v: Value, j: Json, chain: set<Ref>)
    decreases j, h.Keys - chain
  {
    if !v.Object? || v.ref !in h then j == Leaf(v)
    else
      match h[v.ref]
      case Custom(json) => v.ref !in chain && Unfolds(h, json, j, chain + {v.ref})
      case Array(items) =>
        j.JArray? && |j.items| == |items| && forall i | 0 <= i < |items| :: Unfolds(h, items[i], j.items[i], {})
      case Record(fields) =>
        j.JObject? && |j.fields| == |fields| && forall i | 0 <= i < |fields| ::
          fields[i].key == j.fields[i].key
          && (!Sensitive(fields[i].key) ==> Unfolds(h, fields[i].value, j.fields[i].value, {}))
  }

  /** The walk, sensitive values aside, meets no object twice and none in `seen`. An object met again is let pass
      only if its toJSON gives the very text of the mark. */
  predicate MetOnce(h: Heap, v: Value, seen: set<Ref>)
    decreases h.Keys - seen, 0
  {
    if !v.Object? || v.ref !in h then true
    else if v.ref in seen then Unfolds(h, v, CIRCULAR, {})
    else
      match h[v.ref]
      case Custom(json) => MetOnce(h, json, seen + {v.ref})
      case Array(items) => MetOnceItems(h, items, seen + {v.ref})
      case Record(fields) => MetOnceFields(h, fields, seen + {v.ref})
  }

  predicate MetOnceItems(h: Heap, items: seq<Value>, seen: set<Ref>)
    decreases h.Keys - seen, |items|
  {
    items != [] ==> MetOnce(h, items[0], seen) && MetOnceItems(h, items[1..], San(h, items[0], seen).1)
  }

  predicate MetOnceFields(h: Heap, fields: seq<Field<Value>>, seen: set<Ref>)
    decreases h.Keys - seen, |fields|
  {
    fields != [] ==>
      if Sensitive(fields[0].key) then MetOnceFields(h, fields[1..], seen)
      else MetOnce(h, fields[0].value, seen) && MetOnceFields(h, fields[1..], San(h, fields[0].value, seen).1)
  }

  lemma {:induction false} ShorterChain(h: Heap, v: Value, j: Json, chain: set<Ref>, shorter: set<Ref>)
    requires Unfolds(h, v, j, chain) && shorter <= chain
    ensures Unfolds(h, v, j, shorter)
    decreases h.Keys - chain
  {
    if v.Object? && v.ref in h && h[v.ref].Custom? {
      ShorterChain(h, h[v.ref].toJson, j, chain + {v.ref}, shorter + {v.ref});
    }
  }

  /** A graph that reads as the mark reads as nothing else. */
  lemma {:induction false} OneReading(h: Heap, v: Value, j: Json, chain: set<Ref>)
    requires Unfolds(h, v, j, chain) && Unfolds(h, v, CIRCULAR, chain)
    ensures j == CIRCULAR
    decreases h.Keys - chain
  {
    if v.Object? && v.ref in h && h[v.ref].Custom? {
      OneReading(h, h[v.ref].toJson, j, chain + {v.ref});
    }
  }

  lemma MetAgain(h: Heap, v: Value, j: Json, chain: set<Ref>)
    requires Unfolds(h, v, j, chain)
    ensures CIRCULAR == Redact(j) <==> Unfolds(h, v, CIRCULAR, {})
  {
    ShorterChain(h, v, j, chain, {});
    if Unfolds(h, v, CIRCULAR, {}) {
      OneReading(h, v, j, {});
    }
  }

  /** What is printed is the redacted reading exactly if the walk meets no object twice. */
  lemma {:induction false} RedactedIffMetOnce(h: Heap, v: Value, j: Json, chain: set<Ref>, seen: set<Ref>)
    requires Unfolds(h, v, j, chain)
    ensures San(h, v, seen).0 == Redact(j) <==> MetOnce(h, v, seen)
    decreases h.Keys - seen, 0
  {
    if v.Object? && v.ref in h {
      if v.ref in seen {
        MetAgain(h, v, j, chain);
      } else {
        match h[v.ref] {
          case Custom(json) => RedactedIffMetOnce(h, json, j, chain + {v.ref}, seen + {v.ref});
          case Array(items) => ItemsRedactedIffMetOnce(h, items, j.items, seen + {v.ref});
          case Record(fields) => FieldsRedactedIffMetOnce(h, fields, j.fields, seen + {v.ref});
        }
      }
    }
  }

  lemma {:induction false} ItemsRedactedIffMetOnce(h: Heap, items: seq<Value>, js: seq<Json>, seen: set<Ref>)
    requires |js| == |items| && forall i | 0 <= i < |items| :: Unfolds(h, items[i], js[i], {})
    ensures SanItems(h, items, seen).0 == Redact(JArray(js)).items <==> MetOnceItems(h, items, seen)
    decreases h.Keys - seen, |items|
  {
    if items == [] {
      assert Redact(JArray(js)).items == [];
    } else {
      hide Unfolds;
      var after := San(h, items[0], seen).1;
      RedactedIffMetOnce(h, items[0], js[0], {}, seen);
      ItemsRedactedIffMetOnce(h, items[1..], js[1..], after);
      assert Redact(JArray(js)).items == [Redact(js[0])] + Redact(JArray(js[1..])).items;
      SplitHead(San(h, items[0], seen).0, SanItems(h, items[1..], after).0, Redact(js[0]), Redact(JArray(js[1..])).items);
    }
  }

  lemma SplitHead<T>(a: T, s: seq<T>, b: T, t: seq<T>)
    ensures [a] + s == [b] + t <==> a == b && s == t
  {
    if [a] + s == [b] + t {
      assert ([a] + s)[0] == a && ([b] + t)[0] == b;
      assert ([a] + s)[1..] == s && ([b] + t)[1..] == t;
    }
  }

  lemma {:induction false} FieldsRedactedIffMetOnce(h: Heap, fields: seq<Field<Value>>, js: seq<Field<Json>>, seen: set<Ref>)
    requires |js| == |fields| && forall i | 0 <= i < |fields| ::
      fields[i].key == js[i].key && (!Sensitive(fields[i].key) ==> Unfolds(h, fields[i].value, js[i].value, {}))
    ensures SanFields(h, fields, seen).0 == Redact(JObject(js)).fields <==> MetOnceFields(h, fields, seen)
    decreases h.Keys - seen, |fields|
  {
    if fields == [] {
      assert Redact(JObject(js)).fields == [];
    } else {
      hide Unfolds;
      var key, after, out, read := fields[0].key, seen, REDACTED, REDACTED;
      if !Sensitive(key) {
        RedactedIffMetOnce(h, fields[0].value, js[0].value, {}, seen);
        after, out, read := San(h, fields[0].value, seen).1, San(h, fields[0].value, seen).0, Redact(js[0].value);
      }
      FieldsRedactedIffMetOnce(h, fields[1..], js[1..], after);
      assert Redact(JObject(js)).fields == [Field(key, read)] + Redact(JObject(js[1..])).fields;
      SplitHead(Field(key, out), SanFields(h, fields[1..], after).0, Field(key, read), Redact(JObject(js[1..])).fields);
    }
  }

  // ----- met once, said of the graph alone -----

  function Width(j: Json): nat {
    match j
    case JArray(items) => |items|
    case JObject(fields) => |fields|
    case _ => 0
  }

  /** The objects that the reading `j` is made of, one entry for each place where one stands in it. Objects that read as
      the very text of the mark are left out, as are objects below sensitive keys. */
  function Places(h: Heap, v: Value, j: Json, chain: set<Ref>): seq<Ref>
    requires Unfolds(h, v, j, chain)
    decreases j, Width(j) + 1, h.Keys - chain
  {
    if !v.Object? || v.ref !in h || j == CIRCULAR then []
    else
      match h[v.ref]
      case Custom(json) => [v.ref] + Places(h, json, j, chain + {v.ref})
      case Array(items) => [v.ref] + PlacesInItems(h, items, j, 0)
      case Record(fields) => [v.ref] + PlacesInFields(h, fields, j, 0)
  }

  function PlacesInItems(h: Heap, items: seq<Value>, j: Json, k: nat): seq<Ref>
    requires j.JArray? && k <= |items| == |j.items| && forall i | 0 <= i < |items| :: Unfolds(h, items[i], j.items[i], {})
    decreases j, Width(j) - k
  {
    if k == |items| then [] else Places(h, items[k], j.items[k], {}) + PlacesInItems(h, items, j, k + 1)
  }

  function PlacesInFields(h: Heap, fields: seq<Field<Value>>, j: Json, k: nat): seq<Ref>
    requires j.JObject? && k <= |fields| == |j.fields| && forall i | 0 <= i < |fields| ::
      fields[i].key == j.fields[i].key && (!Sensitive(fields[i].key) ==> Unfolds(h, fields[i].value, j.fields[i].value, {}))
    decreases j, Width(j) - k
  {
    if k == |fields| then []
    else
      (if Sensitive(fields[k].key) then [] else Places(h, fields[k].value, j.fields[k].value, {}))
      + PlacesInFields(h, fields, j, k + 1)
  }

  predicate Fresh(rs: seq<Ref>, seen: set<Ref>) {
    && (forall a, b | 0 <= a < b < |rs| :: rs[a] != rs[b])
    && (forall a | 0 <= a < |rs| :: rs[a] !in seen)
  }

  predicate ReadsAsMark(h: Heap, r: Ref) { Unfolds(h, Object(r), CIRCULAR, {}) }

  /** Objects that read as the mark aside, the walk has met `met` if it had seen `seen` and stood at `places`. */
  ghost predicate Met(h: Heap, places: seq<Ref>, seen: set<Ref>, met: set<Ref>) {
    forall q: Ref :: !ReadsAsMark(h, q) ==> (q in met <==> q in seen || q in places)
  }

  predicate NoMarks(h: Heap, places: seq<Ref>) {
    forall a | 0 <= a < |places| :: !ReadsAsMark(h, places[a])
  }

  lemma FreshCons(r: Ref, rest: seq<Ref>, seen: set<Ref>)
    ensures Fresh([r] + rest, seen) <==> r !in seen && Fresh(rest, seen + {r})
  {
    var all := [r] + rest;
    assert forall a | 0 <= a < |rest| :: all[a + 1] == rest[a];
    assert all[0] == r;
    if Fresh(all, seen) {
      forall a | 0 <= a < |rest| ensures rest[a] !in seen + {r} {
        assert all[0] != all[a + 1] && all[a + 1] !in seen;
      }
      forall a, b | 0 <= a < b < |rest| ensures rest[a] != rest[b] {
        assert all[a + 1] != all[b + 1];
      }
    }
  }

  lemma FreshConcat(h: Heap, a: seq<Ref>, b: seq<Ref>, seen: set<Ref>, met: set<Ref>)
    requires NoMarks(h, b) && Met(h, a, seen, met)
    ensures Fresh(a + b, seen) <==> Fresh(a, seen) && Fresh(b, met)
  {
    var all := a + b;
    assert forall i | 0 <= i < |a| :: all[i] == a[i];
    assert forall i | 0 <= i < |b| :: all[|a| + i] == b[i];
    if Fresh(all, seen) {
      forall i | 0 <= i < |b| ensures b[i] !in met {
        assert all[|a| + i] !in seen;
        assert forall k | 0 <= k < |a| :: all[k] != all[|a| + i];
      }
      forall i, k | 0 <= i < k < |b| ensures b[i] != b[k] {
        assert all[|a| + i] != all[|a| + k];
      }
    }
  }

  lemma {:induction false} MetOnceIffFresh(h: Heap, v: Value, j: Json, chain: set<Ref>, seen: set<Ref>)
    requires Unfolds(h, v, j, chain)
    ensures NoMarks(h, Places(h, v, j, chain))
    ensures MetOnce(h, v, seen) <==> Fresh(Places(h, v, j, chain), seen)
    ensures MetOnce(h, v, seen) ==> Met(h, Places(h, v, j, chain), seen, San(h, v, seen).1)
    decreases j, Width(j) + 1, h.Keys - chain
  {
    if v.Object? && v.ref in h {
      var places := Places(h, v, j, chain);
      MetAgain(h, v, j, chain);
      assert j == CIRCULAR <==> ReadsAsMark(h, v.ref);
      match h[v.ref] {
        case Custom(json) =>
          MetOnceIffFresh(h, json, j, chain + {v.ref}, seen + {v.ref});
          if j != CIRCULAR { FreshCons(v.ref, Places(h, json, j, chain + {v.ref}), seen); }
        case Array(items) =>
          ItemsMetOnceIffFresh(h, items, j, 0, seen + {v.ref});
          assert items[0..] == items;
          FreshCons(v.ref, PlacesInItems(h, items, j, 0), seen);
        case Record(fields) =>
          FieldsMetOnceIffFresh(h, fields, j, 0, seen + {v.ref});
          assert fields[0..] == fields;
          FreshCons(v.ref, PlacesInFields(h, fields, j, 0), seen);
      }
    }
  }

  lemma {:induction false} ItemsMetOnceIffFresh(h: Heap, items: seq<Value>, j: Json, k: nat, seen: set<Ref>)
    requires j.JArray? && k <= |items| == |j.items| && forall i | 0 <= i < |items| :: Unfolds(h, items[i], j.items[i], {})
    ensures var places := PlacesInItems(h, items, j, k);
      && NoMarks(h, places) && (MetOnceItems(h, items[k..], seen) <==> Fresh(places, seen))
      && (MetOnceItems(h, items[k..], seen) ==> Met(h, places, seen, SanItems(h, items[k..], seen).1))
    decreases j, Width(j) - k
  {
    if k < |items| {
      hide Unfolds, Places, Met, MetOnce, San, ReadsAsMark, Fresh;
      var met := San(h, items[k], seen).1;
      var here, rest := Places(h, items[k], j.items[k], {}), PlacesInItems(h, items, j, k + 1);
      MetOnceIffFresh(h, items[k], j.items[k], {}, seen);
      ItemsMetOnceIffFresh(h, items, j, k + 1, met);
      assert items[k..][1..] == items[k + 1..];
      Walked(h, here, rest, seen, met, SanItems(h, items[k + 1..], met).1);
    } else {
      NothingWalked(h, seen);
    }
  }

  lemma {:induction false} FieldsMetOnceIffFresh(h: Heap, fields: seq<Field<Value>>, j: Json, k: nat, seen: set<Ref>)
    requires j.JObject? && k <= |fields| == |j.fields| && forall i | 0 <= i < |fields| ::
      fields[i].key == j.fields[i].key && (!Sensitive(fields[i].key) ==> Unfolds(h, fields[i].value, j.fields[i].value, {}))
    ensures var places := PlacesInFields(h, fields, j, k);
      && NoMarks(h, places) && (MetOnceFields(h, fields[k..], seen) <==> Fresh(places, seen))
      && (MetOnceFields(h, fields[k..], seen) ==> Met(h, places, seen, SanFields(h, fields[k..], seen).1))
    decreases j, Width(j) - k
  {
    if k < |fields| {
      hide Unfolds, Places, Met, MetOnce, San, ReadsAsMark, Fresh, Sensitive;
      assert fields[k..][1..] == fields[k + 1..];
      var rest := PlacesInFields(h, fields, j, k + 1);
      if Sensitive(fields[k].key) {
        FieldsMetOnceIffFresh(h, fields, j, k + 1, seen);
        assert [] + rest == rest;
      } else {
        var met := San(h, fields[k].value, seen).1;
        MetOnceIffFresh(h, fields[k].value, j.fields[k].value, {}, seen);
        FieldsMetOnceIffFresh(h, fields, j, k + 1, met);
        Walked(h, Places(h, fields[k].value, j.fields[k].value, {}), rest, seen, met, SanFields(h, fields[k + 1..], met).1);
      }
    } else {
      NothingWalked(h, seen);
    }
  }

  lemma NothingWalked(h: Heap, seen: set<Ref>)
    ensures Fresh([], seen) && Met(h, [], seen, seen)
  {
  }

  /** First here, then the rest. */
  lemma Walked(h: Heap, here: seq<Ref>, rest: seq<Ref>, seen: set<Ref>, met: set<Ref>, end: set<Ref>)
    requires NoMarks(h, here) && NoMarks(h, rest)
    ensures NoMarks(h, here + rest)
    ensures Met(h, here, seen, met) ==> (Fresh(here + rest, seen) <==> Fresh(here, seen) && Fresh(rest, met))
    ensures Met(h, here, seen, met) && Met(h, rest, met, end) ==> Met(h, here + rest, seen, end)
    ensures Fresh(here + rest, seen) ==> Fresh(here, seen)
  {
    if Met(h, here, seen, met) {
      FreshConcat(h, here, rest, seen, met);
    }
    assert forall i | 0 <= i < |here| :: (here + rest)[i] == here[i];
    assert forall i | 0 <= i < |rest| :: (here + rest)[|here| + i] == rest[i];
  }

  predicate NothingIsShared(h: Heap, v: Value, j: Json)
    requires Unfolds(h, v, j, {})
  {
    var places := Places(h, v, j, {});
    forall a, b | 0 <= a < b < |places| :: places[a] != places[b]
  }

  /** On every graph that has a JSON reading, the output is the redacted reading exactly if no object stands at two places of
      the reading: an object that is merely shared is misprinted, whatever lies below sensitive keys is not. */
  lemma RedactedIffNothingIsShared(h: Heap, v: Value, j: Json)
    requires Unfolds(h, v, j, {})
    ensures San(h, v, {}).0 == Redact(j) <==> NothingIsShared(h, v, j)
  {
    hide San, Redact, MetOnce, Places, Unfolds, Met;
    RedactedIffMetOnce(h, v, j, {}, {});
    MetOnceIffFresh(h, v, j, {}, {});
  }

  /** Redaction changes nothing exactly on what is already clean. */
  lemma {:induction false} RedactFixesClean(j: Json)
    ensures Redact(j) == j <==> Clean(j)
  {
    match j {
      case JArray(items) =>
        forall i | 0 <= i < |items| ensures Redact(items[i]) == items[i] <==> Clean(items[i]) {
          RedactFixesClean(items[i]);
        }
        if Redact(j) == j {
          assert forall i | 0 <= i < |items| :: Redact(j).items[i] == items[i];
        }
      case JObject(fields) =>
        forall i | 0 <= i < |fields| ensures Redact(fields[i].value) == fields[i].value <==> Clean(fields[i].value) {
          RedactFixesClean(fields[i].value);
        }
        if Redact(j) == j {
          assert forall i | 0 <= i < |fields| :: Redact(j).fields[i] == fields[i];
        }
      case _ =>
    }
  }

  // ----- laying a JSON tree out as fresh objects -----

  /** The objects, numbered from `n` on, the value at the root, and the first number left over. */
  function LayOut(j: Json, n: nat): (r: (Heap, Value, nat))
    ensures n <= r.2 && forall q | q in r.0 :: n <= q < r.2
    decreases j, Width(j) + 1
  {
    match j
    case JNull => (map[], Null, n)
    case JScalar(scalar) => (map[], Plain(scalar), n)
    case JArray(_) => var (h, vs, m) := LayItems(j, 0, n + 1); (h[n := Array(vs)], Object(n), m)
    case JObject(_) => var (h, vs, m) := LayFields(j, 0, n + 1); (h[n := Record(vs)], Object(n), m)
  }

  function LayItems(j: Json, k: nat, n: nat): (r: (Heap, seq<Value>, nat))
    requires j.JArray? && k <= |j.items|
    ensures n <= r.2 && forall q | q in r.0 :: n <= q < r.2
    decreases j, Width(j) - k
  {
    if k == |j.items| then (map[], [], n)
    else
      var (h, v, m) := LayOut(j.items[k], n);
      var (g, vs, end) := LayItems(j, k + 1, m);
      (h + g, [v] + vs, end)
  }

  function LayFields(j: Json, k: nat, n: nat): (r: (Heap, seq<Field<Value>>, nat))
    requires j.JObject? && k <= |j.fields|
    ensures n <= r.2 && forall q | q in r.0 :: n <= q < r.2
    decreases j, Width(j) - k
  {
    if k == |j.fields| then (map[], [], n)
    else
      var (h, v, m) := LayOut(j.fields[k].value, n);
      var (g, vs, end) := LayFields(j, k + 1, m);
      (h + g, [Field(j.fields[k].key, v)] + vs, end)
  }

  predicate Within(h: Heap, g: Heap) { forall r | r in h :: r in g && g[r] == h[r] }

  predicate Below(seen: set<Ref>, n: nat) { forall r | r in seen :: r < n }

  lemma {:induction false} LayOutUnfolds(j: Json, n: nat, g: Heap)
    requires Within(LayOut(j, n).0, g)
    ensures Unfolds(g, LayOut(j, n).1, j, {})
    decreases j, Width(j) + 1
  {
    hide Unfolds;
    match j {
      case JNull => assert Unfolds(g, Null, j, {}) by { LeafUnfolds(g, Null); }
      case JScalar(scalar) => assert Unfolds(g, Plain(scalar), j, {}) by { LeafUnfolds(g, Plain(scalar)); }
      case JArray(items) =>
        var (h, vs, m) := LayItems(j, 0, n + 1);
        assert n in LayOut(j, n).0 && Within(h, g);
        LayItemsUnfold(j, 0, n + 1, g);
        ArrayUnfolds(g, n, vs, items);
      case JObject(fields) =>
        var (h, vs, m) := LayFields(j, 0, n + 1);
        assert n in LayOut(j, n).0 && Within(h, g);
        LayFieldsUnfold(j, 0, n + 1, g);
        RecordUnfolds(g, n, vs, fields);
    }
  }

  lemma LeafUnfolds(h: Heap, v: Value)
    requires !v.Object?
    ensures Unfolds(h, v, Leaf(v), {})
  {
  }

  lemma ArrayUnfolds(h: Heap, r: Ref, vs: seq<Value>, items: seq<Json>)
    requires r in h && h[r] == Array(vs) && |vs| == |items|
    requires forall i | 0 <= i < |vs| :: Unfolds(h, vs[i], items[i], {})
    ensures Unfolds(h, Object(r), JArray(items), {})
  {
  }

  lemma RecordUnfolds(h: Heap, r: Ref, vs: seq<Field<Value>>, fields: seq<Field<Json>>)
    requires r in h && h[r] == Record(vs) && |vs| == |fields|
    requires forall i | 0 <= i < |vs| :: vs[i].key == fields[i].key && Unfolds(h, vs[i].value, fields[i].value, {})
    ensures Unfolds(h, Object(r), JObject(fields), {})
  {
  }

  lemma {:induction false} LayItemsUnfold(j: Json, k: nat, n: nat, g: Heap)
    requires j.JArray? && k <= |j.items| && Within(LayItems(j, k, n).0, g)
    ensures var vs := LayItems(j, k, n).1;
      |vs| == |j.items| - k && forall i | 0 <= i < |vs| :: Unfolds(g, vs[i], j.items[k + i], {})
    decreases j, Width(j) - k
  {
    hide Unfolds;
    if k < |j.items| {
      var (h, v, m) := LayOut(j.items[k], n);
      var (rest, vs, end) := LayItems(j, k + 1, m);
      BothWithin(h, rest, g);
      LayOutUnfolds(j.items[k], n, g);
      LayItemsUnfold(j, k + 1, m, g);
    }
  }

  lemma {:induction false} LayFieldsUnfold(j: Json, k: nat, n: nat, g: Heap)
    requires j.JObject? && k <= |j.fields| && Within(LayFields(j, k, n).0, g)
    ensures var vs := LayFields(j, k, n).1;
      |vs| == |j.fields| - k && forall i | 0 <= i < |vs| ::
        vs[i].key == j.fields[k + i].key && Unfolds(g, vs[i].value, j.fields[k + i].value, {})
    decreases j, Width(j) - k
  {
    hide Unfolds;
    if k < |j.fields| {
      var (h, v, m) := LayOut(j.fields[k].value, n);
      var (rest, vs, end) := LayFields(j, k + 1, m);
      BothWithin(h, rest, g);
      LayOutUnfolds(j.fields[k].value, n, g);
      LayFieldsUnfold(j, k + 1, m, g);
    }
  }

  lemma BothWithin(h: Heap, rest: Heap, g: Heap)
    requires Within(h + rest, g) && forall r | r in h :: r !in rest
    ensures Within(h, g) && Within(rest, g)
  {
    assert forall r | r in h :: (h + rest)[r] == h[r];
    assert forall r | r in rest :: (h + rest)[r] == rest[r];
  }

  lemma {:induction false} LayOutMetOnce(j: Json, n: nat, g: Heap, seen: set<Ref>)
    requires Within(LayOut(j, n).0, g) && Below(seen, n)
    ensures MetOnce(g, LayOut(j, n).1, seen) && Below(San(g, LayOut(j, n).1, seen).1, LayOut(j, n).2)
    decreases j, Width(j) + 1
  {
    hide Unfolds, LayItems, LayFields, MetOnceItems, MetOnceFields, SanItems, SanFields;
    match j {
      case JArray(items) =>
        assert n in LayOut(j, n).0;
        LayItemsMetOnce(j, 0, n + 1, g, seen + {n});
      case JObject(fields) =>
        assert n in LayOut(j, n).0;
        LayFieldsMetOnce(j, 0, n + 1, g, seen + {n});
      case _ =>
    }
  }

  lemma {:induction false} LayItemsMetOnce(j: Json, k: nat, n: nat, g: Heap, seen: set<Ref>)
    requires j.JArray? && k <= |j.items| && Within(LayItems(j, k, n).0, g) && Below(seen, n)
    ensures var (_, vs, end) := LayItems(j, k, n); MetOnceItems(g, vs, seen) && Below(SanItems(g, vs, seen).1, end)
    decreases j, Width(j) - k
  {
    hide MetOnce, San;
    if k < |j.items| {
      var (h, v, m) := LayOut(j.items[k], n);
      var (rest, vs, end) := LayItems(j, k + 1, m);
      BothWithin(h, rest, g);
      LayOutMetOnce(j.items[k], n, g, seen);
      LayItemsMetOnce(j, k + 1, m, g, San(g, v, seen).1);
      assert ([v] + vs)[1..] == vs;
    }
  }

  lemma {:induction false} LayFieldsMetOnce(j: Json, k: nat, n: nat, g: Heap, seen: set<Ref>)
    requires j.JObject? && k <= |j.fields| && Within(LayFields(j, k, n).0, g) && Below(seen, n)
    ensures var (_, vs, end) := LayFields(j, k, n); MetOnceFields(g, vs, seen) && Below(SanFields(g, vs, seen).1, end)
    decreases j, Width(j) - k
  {
    hide MetOnce, San;
    if k < |j.fields| {
      var (h, v, m) := LayOut(j.fields[k].value, n);
      var (rest, vs, end) := LayFields(j, k + 1, m);
      BothWithin(h, rest, g);
      var after := seen;
      if !Sensitive(j.fields[k].key) {
        LayOutMetOnce(j.fields[k].value, n, g, seen);
        after := San(g, v, seen).1;
      }
      LayFieldsMetOnce(j, k + 1, m, g, after);
      assert ([Field(j.fields[k].key, v)] + vs)[1..] == vs;
    }
  }

  /** The walk over any JSON tree, laid out as fresh objects, is redaction of the tree. */
  lemma LaidOutTreeIsRedacted(j: Json)
    ensures var (laid, root, _) := LayOut(j, 0);
            Unfolds(laid, root, j, {}) && San(laid, root, {}).0 == Redact(j)
  {
    hide San, LayOut, Unfolds, MetOnce;
    var (laid, root, _) := LayOut(j, 0);
    LayOutUnfolds(j, 0, laid);
    LayOutMetOnce(j, 0, laid, {});
    RedactedIffMetOnce(laid, root, j, {}, {});
  }

  /** Sanitizing what a walk has written, whatever graph it came from, writes it again. */
  lemma SanitizingTwiceIsOnce(h: Heap, v: Value, seen: set<Ref>)
    ensures var out := San(h, v, seen).0;
            var (laid, root, _) := LayOut(out, 0);
            San(laid, root, {}).0 == out
  {
    LaidOutTreeIsRedacted(San(h, v, seen).0);
    OutputIsClean(h, v, seen);
    RedactFixesClean(San(h, v, seen).0);
  }

  /** A graph without a cycle that is misprinted: its object is printed as circular the second time. */
  lemma SharedObjectPrintsAsCircular()
    ensures var h := map[0 := Array([Object(1), Object(1)]), 1 := Record([])];
      && Unfolds(h, Object(0), JArray([JObject([]), JObject([])]), {})
      && San(h, Object(0), {}).0 == JArray([JObject([]), JScalar(Text("[Circular]"))])
  {
    var h := map[0 := Array([Object(1), Object(1)]), 1 := Record([])];
    assert Unfolds(h, Object(1), JObject([]), {});
    assert {0} + {1} == {0, 1} && {} + {0} == {0};
    assert San(h, Object(1), {0}) == (JObject([]), {0, 1});
    assert San(h, Object(1), {0, 1}) == (CIRCULAR, {0, 1});
    assert SanItems(h, [Object(1)], {0, 1}).0 == [CIRCULAR];
    assert [Object(1), Object(1)][1..] == [Object(1)];
    assert SanItems(h, [Object(1), Object(1)], {0}).0 == [JObject([]), CIRCULAR];
  }

  // ----- what lies below sensitive keys cannot be told from the output -----

  predicate SameValue(m: map<Ref, Ref>, v: Value, w: Value) {
    if v.Object? then w.Object? && v.ref in m && m[v.ref] == w.ref else v == w
  }

  predicate SameItems(m: map<Ref, Ref>, vs: seq<Value>, ws: seq<Value>) {
    |vs| == |ws| && forall i | 0 <= i < |vs| :: SameValue(m, vs[i], ws[i])
  }

  /** Same keys, and same values under keys that are not sensitive. */
  predicate SameFields(m: map<Ref, Ref>, vs: seq<Field<Value>>, ws: seq<Field<Value>>) {
    |vs| == |ws| && forall i | 0 <= i < |vs| ::
      vs[i].key == ws[i].key && (!Sensitive(vs[i].key) ==> SameValue(m, vs[i].value, ws[i].value))
  }

  predicate SameNode(m: map<Ref, Ref>, a: Node, b: Node) {
    match (a, b)
    case (Array(vs), Array(ws)) => SameItems(m, vs, ws)
    case (Record(vs), Record(ws)) => SameFields(m, vs, ws)
    case (Custom(v), Custom(w)) => SameValue(m, v, w)
    case _ => false
  }

  /** The two graphs agree, up to the renaming `m` of objects, on everything not below a sensitive key. */
  predicate SameInPublic(h: Heap, g: Heap, m: map<Ref, Ref>) {
    && (forall r, q | r in m && q in m && m[r] == m[q] :: r == q)
    && (forall r | r in m :: r in h && m[r] in g && SameNode(m, h[r], g[m[r]]))
  }

  predicate SameSeen(m: map<Ref, Ref>, seen: set<Ref>, met: set<Ref>) {
    forall r | r in m :: r in seen <==> m[r] in met
  }

  lemma SeenBoth(m: map<Ref, Ref>, seen: set<Ref>, met: set<Ref>, r: Ref)
    requires SameSeen(m, seen, met) && r in m
    ensures r in seen <==> m[r] in met
  {
  }

  lemma SeeBoth(m: map<Ref, Ref>, seen: set<Ref>, met: set<Ref>, r: Ref)
    requires SameSeen(m, seen, met) && r in m && forall q | q in m && m[q] == m[r] :: q == r
    ensures SameSeen(m, seen + {r}, met + {m[r]})
  {
  }

  lemma {:induction false} WalksAgree(h: Heap, g: Heap, m: map<Ref, Ref>, v: Value, w: Value, seen: set<Ref>, met: set<Ref>)
    requires SameInPublic(h, g, m) && SameValue(m, v, w) && SameSeen(m, seen, met)
    ensures San(h, v, seen).0 == San(g, w, met).0
    ensures SameSeen(m, San(h, v, seen).1, San(g, w, met).1)
    decreases h.Keys - seen, 0
  {
    hide SameSeen, SameItems, SameFields;
    if v.Object? {
      assert v.ref in seen <==> w.ref in met by { SeenBoth(m, seen, met, v.ref); }
      if v.ref !in seen {
        SeeBoth(m, seen, met, v.ref);
        match h[v.ref] {
          case Custom(json) => WalksAgree(h, g, m, json, g[w.ref].toJson, seen + {v.ref}, met + {w.ref});
          case Array(items) => ItemWalksAgree(h, g, m, items, g[w.ref].items, seen + {v.ref}, met + {w.ref});
          case Record(fields) => FieldWalksAgree(h, g, m, fields, g[w.ref].fields, seen + {v.ref}, met + {w.ref});
        }
      }
    }
  }

  lemma {:induction false} ItemWalksAgree(h: Heap, g: Heap, m: map<Ref, Ref>, vs: seq<Value>, ws: seq<Value>,
                                          seen: set<Ref>, met: set<Ref>)
    requires SameInPublic(h, g, m) && SameItems(m, vs, ws) && SameSeen(m, seen, met)
    ensures SanItems(h, vs, seen).0 == SanItems(g, ws, met).0
    ensures SameSeen(m, SanItems(h, vs, seen).1, SanItems(g, ws, met).1)
    decreases h.Keys - seen, |vs|
  {
    hide SameSeen, SameInPublic;
    if vs != [] {
      WalksAgree(h, g, m, vs[0], ws[0], seen, met);
      ItemWalksAgree(h, g, m, vs[1..], ws[1..], San(h, vs[0], seen).1, San(g, ws[0], met).1);
    }
  }

  lemma {:induction false} FieldWalksAgree(h: Heap, g: Heap, m: map<Ref, Ref>, vs: seq<Field<Value>>, ws: seq<Field<Value>>,
                                           seen: set<Ref>, met: set<Ref>)
    requires SameInPublic(h, g, m) && SameFields(m, vs, ws) && SameSeen(m, seen, met)
    ensures SanFields(h, vs, seen).0 == SanFields(g, ws, met).0
    ensures SameSeen(m, SanFields(h, vs, seen).1, SanFields(g, ws, met).1)
    decreases h.Keys - seen, |vs|
  {
    hide SameSeen, SameInPublic;
    if vs != [] {
      if Sensitive(vs[0].key) {
        FieldWalksAgree(h, g, m, vs[1..], ws[1..], seen, met);
      } else {
        WalksAgree(h, g, m, vs[0].value, ws[0].value, seen, met);
        FieldWalksAgree(h, g, m, vs[1..], ws[1..], San(h, vs[0].value, seen).1, San(g, ws[0].value, met).1);
      }
    }
  }

  /** Two requests and responses that differ only below sensitive keys leave the same audit entry. */
  lemma SecretsDoNotShow(action: AuditAction, h: Heap, g: Heap, m: map<Ref, Ref>,
                         request: Value, response: Value, request': Value, response': Value)
    requires SameInPublic(h, g, m) && SameValue(m, request, request') && SameValue(m, response, response')
    ensures Changes(action, h, request, response) == Changes(action, g, request', response')
  {
    WalksAgree(h, g, m, request, request', {}, {});
    WalksAgree(h, g, m, response, response', {}, {});
  }

  /** The whole payload is clean. */
  lemma EntryIsClean(action: AuditAction, h: Heap, request: Value, response: Value)
    ensures Clean(Changes(action, h, request, response))
  {
    OutputIsClean(h, request, {});
    OutputIsClean(h, response, {});
    assert ToLower("after")[0] == 'a' && |ToLower("after")| == 5;
    assert ToLower("before")[0] == 'b' && |ToLower("requestedChanges")| == 16;
  }

  function FieldOf(j: Json, key: string): Json {
    if j.JObject? then FindField(j.fields, key) else JNull
  }

  function FindField(fields: seq<Field<Json>>, key: string): Json {
    if fields == [] then JNull
    else if fields[0].key == key then fields[0].value else FindField(fields[1..], key)
  }

  lemma FindInTwo(a: Field<Json>, b: Field<Json>)
    ensures forall key :: FindField([a], key) == if a.key == key then a.value else JNull
    ensures forall key ::
      FindField([a, b], key) == if a.key == key then a.value else if b.key == key then b.value else JNull
  {
    assert [a][1..] == [] && [a, b][1..] == [b] && [b][1..] == [];
    assert forall key :: FindField([b], key) == if b.key == key then b.value else JNull;
  }

  /** When neither body shares objects within itself, the entry holds the redacted response under "before" for a deletion
      and under "after" else, and the redacted request under "requestedChanges" for an update only; objects that
      the two bodies have in common do no harm. */
  lemma EntryHoldsBodies(action: AuditAction, h: Heap, request: Value, response: Value, requested: Json, answered: Json)
    requires Unfolds(h, request, requested, {}) && Unfolds(h, response, answered, {})
    requires NothingIsShared(h, request, requested) && NothingIsShared(h, response, answered)
    ensures var changes := Changes(action, h, request, response);
      && FieldOf(changes, if action.Delete? then "before" else "after") == Redact(answered)
      && FieldOf(changes, if action.Delete? then "after" else "before") == JNull
      && FieldOf(changes, "requestedChanges") == if action.Update? then Redact(requested) else JNull
  {
    hide San, Redact, NothingIsShared, Unfolds;
    RedactedIffNothingIsShared(h, request, requested);
    RedactedIffNothingIsShared(h, response, answered);
    assert "before"[0] != "after"[0] && "requestedChanges"[0] != "after"[0] && "requestedChanges"[0] != "before"[0];
    var before, after := Field("before", San(h, response, {}).0), Field("after", San(h, response, {}).0);
    FindInTwo(before, after);
    FindInTwo(after, before);
    FindInTwo(Field("requestedChanges", San(h, request, {}).0), after);
  }

  // ----- letter case -----

  /** `c` is `low` itself, its capital, or the Kelvin sign for k. */
  predicate SameLetter(c: char, low: char) {
    c == low || ('a' <= low <= 'z' && c == low - 'a' + 'A') || (low == 'k' && c == KELVIN)
  }

  predicate Spells(key: string, word: string) {
    |key| == |word| && forall i | 0 <= i < |key| :: SameLetter(key[i], word[i])
  }

  predicate AllSmall(word: string) { forall i | 0 <= i < |word| :: 'a' <= word[i] <= 'z' }

  lemma SpellsIff(key: string, word: string)
    requires AllSmall(word)
    ensures Spells(key, word) <==> ToLower(key) == word
  {
    if ToLower(key) == word {
      assert forall i | 0 <= i < |key| :: LowerChar(key[i]) == ToLower(key)[i] == word[i];
    }
  }

  /** A key is sensitive exactly if it spells one of the thirteen words in any mixture of cases. */
  lemma SensitiveInAnyCase(key: string)
    ensures Sensitive(key) <==> exists word | word in SENSITIVE_KEYS :: Spells(key, word)
  {
    forall word | word in SENSITIVE_KEYS ensures Spells(key, word) <==> ToLower(key) == word {
      assert AllSmall(word);
      SpellsIff(key, word);
    }
  }

  lemma SpeltIsSensitive(key: string, word: string)
    requires word in SENSITIVE_KEYS && AllSmall(word) && Spells(key, word)
    ensures Sensitive(key)
  {
    SpellsIff(key, word);
  }

  lemma PasswordsAreSensitive()
    ensures Sensitive("password") && Sensitive("passwordHash") && Sensitive("currentPassword") && Sensitive("newPassword")
  {
    hide Sensitive;
    SpeltIsSensitive("password", "password");
    SpeltIsSensitive("passwordHash", "passwordhash");
    SpeltIsSensitive("currentPassword", "currentpassword");
    SpeltIsSensitive("newPassword", "newpassword");
  }

  lemma TokensAreSensitive()
    ensures Sensitive("token") && Sensitive("tokenHash") && Sensitive("refreshToken") && Sensitive("accessToken")
  {
    hide Sensitive;
    SpeltIsSensitive("token", "token");
    SpeltIsSensitive("tokenHash", "tokenhash");
    SpeltIsSensitive("refreshToken", "refreshtoken");
    SpeltIsSensitive("accessToken", "accesstoken");
  }

  lemma KeysAreSensitive()
    ensures Sensitive("key") && Sensitive("keyHash") && Sensitive("secret")
  {
    hide Sensitive;
    SpeltIsSensitive("key", "key");
    SpeltIsSensitive("keyHash", "keyhash");
    SpeltIsSensitive("secret", "secret");
  }

  lemma HeadersAreSensitive()
    ensures Sensitive("Authorization") && Sensitive("Cookie")
  {
    hide Sensitive;
    SpeltIsSensitive("Authorization", "authorization");
    SpeltIsSensitive("Cookie", "cookie");
  }

  /** The fields and headers that carry credentials are sensitive as requests spell them. */
  lemma CredentialsAreSensitive(key: string)
    requires key in {"password", "passwordHash", "currentPassword", "newPassword"}
          || key in {"token", "tokenHash", "refreshToken", "accessToken"}
          || key in {"key", "keyHash", "secret"} || key in {"Authorization", "Cookie"}
    ensures Sensitive(key)
  {
    hide Sensitive;
    PasswordsAreSensitive();
    TokensAreSensitive();
    KeysAreSensitive();
    HeadersAreSensitive();
  }
}
