/**
 * The key sanitiser of lib/index.js: `replaceKeys` with its local `mixin`
 * helper, and the `ERROR` wrapper it builds for error values.
 *
 * Payloads are JSON-like values. Objects are ordered lists of key/value
 * pairs in the order JavaScript enumerates them.
 */
module Sanitizer {
  import opened Wrappers

  /** A JSON-like payload value, plus the object kinds `replaceKeys` singles out. */
  datatype Value =
    | Null
    | Str(s: string)
    | Num(n: int)
    | Bool(b: bool)
    | Date(millis: int)
    | Regex(source: string)
    | ObjectId(hex: string)
    | Error(name: string, message: Option<string>)
    | Arr(items: seq<Value>)
    | Obj(fields: seq<(string, Value)>)

  /** Values `replaceKeys` returns as they are: null and other non-objects,
      dates, regular expressions and ObjectIDs. */
  predicate IsPassThrough(v: Value) {
    !(v.Error? || v.Arr? || v.Obj?)
  }

  // ---------------------------------------------------------------------
  // Keys

  predicate HasDollarPrefix(k: string) {
    |k| > 0 && k[0] == '$'
  }

  /** A key the document store accepts as a field name. */
  predicate IsSafeKey(k: string) {
    !HasDollarPrefix(k) && '.' !in k
  }

  /** What `key.replace(/\./g, '_dot_')` puts in place of one character. */
  function EscapeChar(c: char): string {
    if c == '.' then "_dot_" else [c]
  }

  /** `key.replace(/\./g, '_dot_')`. */
  function EscapeDots(k: string): (r: string)
    ensures '.' !in r
    ensures '.' !in k ==> r == k
  {
    if k == [] then [] else EscapeChar(k[0]) + EscapeDots(k[1..])
  }

  /** Escaping dots works character by character: it distributes over concatenation. */
  lemma {:induction false} EscapeDotsAppend(a: string, b: string)
    ensures EscapeDots(a + b) == EscapeDots(a) + EscapeDots(b)
  {
    if a == [] {
      assert a + b == b;
    } else {
      assert (a + b)[0] == a[0] && (a + b)[1..] == a[1..] + b;
      EscapeDotsAppend(a[1..], b);
    }
  }

  /** Every `.` becomes `_dot_`, wherever it stands. */
  lemma EscapeDotsOfDot(a: string, b: string)
    ensures EscapeDots(a + "." + b) == EscapeDots(a) + "_dot_" + EscapeDots(b)
  {
    EscapeDotsAppend(a + ".", b);
    EscapeDotsAppend(a, ".");
    assert EscapeDots(".") == "_dot_";
  }

  /** The key rewrite of `mixin`: a leading `$` becomes `_dollar_`, then every
      `.` becomes `_dot_`. */
  function EscapeKey(k: string): (r: string)
    ensures IsSafeKey(r)
    ensures IsSafeKey(k) ==> r == k
    ensures HasDollarPrefix(k) ==> r == "_dollar_" + EscapeDots(k[1..])
    ensures !HasDollarPrefix(k) ==> r == EscapeDots(k)
  {
    var undollared := if HasDollarPrefix(k) then "_dollar_" + k[1..] else k;
    EscapeDotsNoDollar(undollared);
    if HasDollarPrefix(k) then
      EscapeDotsAfterDollar(k[1..]);
      EscapeDots(undollared)
    else
      EscapeDots(undollared)
  }

  lemma EscapeDotsAfterDollar(rest: string)
    ensures EscapeDots("_dollar_" + rest) == "_dollar_" + EscapeDots(rest)
  {
    EscapeDotsAppend("_dollar_", rest);
    assert EscapeDots("_dollar_") == "_dollar_";
  }

  /** Escaping dots never puts a `$` at the front of a key that had none. */
  lemma EscapeDotsNoDollar(k: string)
    requires !HasDollarPrefix(k)
    ensures !HasDollarPrefix(EscapeDots(k))
  {
    if k != [] {
      assert EscapeDots(k) == EscapeChar(k[0]) + EscapeDots(k[1..]);
    }
  }

  /** Escaping is idempotent: an escaped key is left alone by a second pass. */
  lemma EscapeKeyIdempotent(k: string)
    ensures EscapeKey(EscapeKey(k)) == EscapeKey(k)
  {
  }

  // ---------------------------------------------------------------------
  // Errors

  /** `Error.prototype.toString` (section 20.5.3.4 of ECMA-262): the name, the
      message, or both joined by ": " when both are non-empty. */
  function ErrorToString(name: string, message: Option<string>): (r: string)
    ensures r == "" <==> name == "" && message.GetOr("") == ""
    ensures message.GetOr("") == "" ==> r == name
    ensures name == "" ==> r == message.GetOr("")
    ensures name != "" && message.GetOr("") != "" ==> r == name + ": " + message.value
  {
    var msg := message.GetOr("");
    if name == "" then msg
    else if msg == "" then name
    else name + ": " + msg
  }

  /** `err.message || 'error'`: an absent or empty message falls back to "error". */
  function ErrorMessage(message: Option<string>): (r: string)
    ensures r != ""
    ensures message.GetOr("") != "" ==> r == message.value
    ensures message.GetOr("") == "" ==> r == "error"
  {
    if message.Some? && message.value != "" then message.value else "error"
  }

  /** The object `new ERROR(err)` stores: its own enumerable `name` and `message`. */
  function ErrorRecord(name: string, message: Option<string>): (r: Value)
    ensures r.Obj? && |r.fields| == 2
    ensures r.fields[0] == ("name", Str(ErrorToString(name, message)))
    ensures r.fields[1] == ("message", Str(ErrorMessage(message)))
  {
    Obj([("name", Str(ErrorToString(name, message))),
         ("message", Str(ErrorMessage(message)))])
  }

  // ---------------------------------------------------------------------
  // Objects as ordered key/value lists

  function Keys(fs: seq<(string, Value)>): (r: seq<string>)
    ensures |r| == |fs|
  {
    seq(|fs|, i requires 0 <= i < |fs| => fs[i].0)
  }

  predicate Distinct(s: seq<string>) {
    forall i, j :: 0 <= i < j < |s| ==> s[i] != s[j]
  }

  predicate DistinctKeys(fs: seq<(string, Value)>) {
    Distinct(Keys(fs))
  }

  /** Reading `obj[k]`: the value stored under `k`, if any. */
  function Lookup(fs: seq<(string, Value)>, k: string): (r: Option<Value>)
    ensures r.Some? <==> k in Keys(fs)
  {
    if fs == [] then None
    else
      assert Keys(fs) == [fs[0].0] + Keys(fs[1..]);
      if fs[0].0 == k then Some(fs[0].1)
      else Lookup(fs[1..], k)
  }

  lemma KeysCons(p: (string, Value), fs: seq<(string, Value)>)
    ensures Keys([p] + fs) == [p.0] + Keys(fs)
  {
  }

  /** `dest[k] = v`: overwrite the value in place if `k` is present, else
      append the pair at the end. */
  function Assign(dest: seq<(string, Value)>, k: string, v: Value): (r: seq<(string, Value)>)
    ensures Keys(r) == if k in Keys(dest) then Keys(dest) else Keys(dest) + [k]
    ensures forall i :: 0 <= i < |r| ==> r[i] in dest || r[i] == (k, v)
  {
    if dest == [] then [(k, v)]
    else
      KeysCons(dest[0], dest[1..]);
      assert [dest[0]] + dest[1..] == dest;
      if dest[0].0 == k then
        KeysCons((k, v), dest[1..]);
        [(k, v)] + dest[1..]
      else
        var rest := Assign(dest[1..], k, v);
        KeysCons(dest[0], rest);
        [dest[0]] + rest
  }

  /** After `dest[k] = v`, reading `k` gives `v` and every other key reads as before. */
  lemma {:induction false} AssignLookup(dest: seq<(string, Value)>, k: string, v: Value, k': string)
    ensures Lookup(Assign(dest, k, v), k') == if k' == k then Some(v) else Lookup(dest, k')
  {
    if dest != [] && dest[0].0 != k {
      AssignLookup(dest[1..], k, v, k');
    }
  }

  /** An assignment never produces a duplicate key. */
  lemma AssignDistinct(dest: seq<(string, Value)>, k: string, v: Value)
    requires DistinctKeys(dest)
    ensures DistinctKeys(Assign(dest, k, v))
  {
  }

  /** The value the last pair with key `k` carries: the one that survives a
      sequence of assignments. */
  function LastValue(pairs: seq<(string, Value)>, k: string): (r: Option<Value>)
    ensures r.Some? <==> k in Keys(pairs)
  {
    if pairs == [] then None
    else
      assert Keys(pairs) == [pairs[0].0] + Keys(pairs[1..]);
      var later := LastValue(pairs[1..], k);
      if later.Some? then later
      else if pairs[0].0 == k then Some(pairs[0].1)
      else None
  }

  /** The `forEach` of `mixin`: assign each pair in turn. */
  function AssignAll(dest: seq<(string, Value)>, pairs: seq<(string, Value)>): (r: seq<(string, Value)>)
    ensures forall i :: 0 <= i < |r| ==> r[i] in dest || r[i] in pairs
    ensures |r| <= |dest| + |pairs|
    ensures DistinctKeys(dest) ==> DistinctKeys(r)
    decreases pairs
  {
    if pairs == [] then dest
    else
      var next := Assign(dest, pairs[0].0, pairs[0].1);
      assert DistinctKeys(dest) ==> DistinctKeys(next) by {
        if DistinctKeys(dest) { AssignDistinct(dest, pairs[0].0, pairs[0].1); }
      }
      AssignAll(next, pairs[1..])
  }

  /** After the assignments, each key holds the value of the LAST pair that
      carries it; keys no pair carries keep their old value. */
  lemma {:induction false} AssignAllLookup(dest: seq<(string, Value)>, pairs: seq<(string, Value)>, k: string)
    ensures Lookup(AssignAll(dest, pairs), k)
         == if LastValue(pairs, k).Some? then LastValue(pairs, k) else Lookup(dest, k)
    decreases pairs
  {
    if pairs != [] {
      AssignLookup(dest, pairs[0].0, pairs[0].1, k);
      AssignAllLookup(Assign(dest, pairs[0].0, pairs[0].1), pairs[1..], k);
    }
  }

  /** Assigning a key the object lacks appends the pair. */
  lemma {:induction false} AssignFresh(dest: seq<(string, Value)>, k: string, v: Value)
    requires k !in Keys(dest)
    ensures Assign(dest, k, v) == dest + [(k, v)]
  {
    if dest != [] {
      assert [dest[0]] + dest[1..] == dest;
      KeysCons(dest[0], dest[1..]);
      AssignFresh(dest[1..], k, v);
      assert Assign(dest, k, v) == [dest[0]] + (dest[1..] + [(k, v)]);
    }
  }

  lemma KeysAppend(a: seq<(string, Value)>, b: seq<(string, Value)>)
    ensures Keys(a + b) == Keys(a) + Keys(b)
  {
  }

  lemma NextKeyFresh(dest: seq<(string, Value)>, pairs: seq<(string, Value)>)
    requires DistinctKeys(dest + pairs) && pairs != []
    ensures pairs[0].0 !in Keys(dest)
  {
    KeysAppend(dest, pairs);
    var all := Keys(dest + pairs);
    assert all[|dest|] == pairs[0].0;
    assert forall i :: 0 <= i < |dest| ==> all[i] == Keys(dest)[i];
  }

  lemma AssignAllFreshStep(dest: seq<(string, Value)>, pairs: seq<(string, Value)>)
    requires pairs != [] && pairs[0].0 !in Keys(dest)
    ensures AssignAll(dest, pairs) == AssignAll(dest + [pairs[0]], pairs[1..])
  {
    var p := pairs[0];
    AssignFresh(dest, p.0, p.1);
    assert Assign(dest, p.0, p.1) == dest + [p];
  }

  lemma ConcatHead(dest: seq<(string, Value)>, pairs: seq<(string, Value)>)
    requires pairs != []
    ensures (dest + [pairs[0]]) + pairs[1..] == dest + pairs
  {
    assert [pairs[0]] + pairs[1..] == pairs;
  }

  /** Assigning distinct keys to an object that lacks them all appends them in order. */
  lemma {:induction false} AssignAllFresh(dest: seq<(string, Value)>, pairs: seq<(string, Value)>)
    requires DistinctKeys(dest + pairs)
    ensures AssignAll(dest, pairs) == dest + pairs
    decreases pairs
  {
    if pairs != [] {
      NextKeyFresh(dest, pairs);
      AssignAllFreshStep(dest, pairs);
      ConcatHead(dest, pairs);
      AssignAllFresh(dest + [pairs[0]], pairs[1..]);
    }
  }

  // ---------------------------------------------------------------------
  // replaceKeys

  /** A value fit for storage: no error objects, and every object, at every
      depth, has distinct keys, none starting with `$` or holding a `.`. */
  predicate Clean(v: Value) {
    match v
    case Error(_, _) => false
    case Arr(items) => forall i :: 0 <= i < |items| ==> Clean(items[i])
    case Obj(fields) =>
      DistinctKeys(fields) &&
      forall i :: 0 <= i < |fields| ==> IsSafeKey(fields[i].0) && Clean(fields[i].1)
    case _ => true
  }

  /** The key/value pairs `mixin` assigns for the object `fields`, in order. */
  function EscapedPairs(fields: seq<(string, Value)>): (r: seq<(string, Value)>)
    ensures |r| == |fields|
    ensures forall i :: 0 <= i < |fields| ==> r[i].0 == EscapeKey(fields[i].0)
    ensures forall i :: 0 <= i < |fields| ==> r[i].1 == Sanitize(fields[i].1) && Clean(r[i].1)
    decreases Obj(fields), 0
  {
    seq(|fields|, i requires 0 <= i < |fields| => (EscapeKey(fields[i].0), Sanitize(fields[i].1)))
  }

  /** `mixin` into a fresh object of pairs with safe keys and clean values
      gives a clean object. */
  lemma AssignAllClean(pairs: seq<(string, Value)>)
    requires forall i :: 0 <= i < |pairs| ==> IsSafeKey(pairs[i].0) && Clean(pairs[i].1)
    ensures Clean(Obj(AssignAll([], pairs)))
  {
    var r := AssignAll([], pairs);
    forall i | 0 <= i < |r| ensures IsSafeKey(r[i].0) && Clean(r[i].1) {
      assert r[i] in pairs;
    }
  }

  /** `replaceKeys`. */
  function Sanitize(v: Value): (r: Value)
    ensures Clean(r)
    ensures IsPassThrough(v) ==> r == v
    ensures v.Arr? ==> r.Arr? && |r.items| == |v.items|
    ensures v.Obj? ==> r.Obj? && |r.fields| <= |v.fields|
    decreases v, 1
  {
    match v
    case Error(name, message) => ErrorRecord(name, message)
    case Arr(items) => Arr(seq(|items|, i requires 0 <= i < |items| => Sanitize(items[i])))
    case Obj(fields) =>
      var pairs := EscapedPairs(fields);
      AssignAllClean(pairs);
      Obj(AssignAll([], pairs))
    case _ => v
  }

  /** A value already fit for storage comes back unchanged. */
  lemma {:induction false} SanitizeFixesClean(v: Value)
    requires Clean(v)
    ensures Sanitize(v) == v
    decreases v
  {
    match v
    case Arr(items) =>
      forall i | 0 <= i < |items| ensures Sanitize(items[i]) == items[i] {
        SanitizeFixesClean(items[i]);
      }
    case Obj(fields) =>
      var pairs := EscapedPairs(fields);
      forall i | 0 <= i < |fields| ensures pairs[i] == fields[i] {
        SanitizeFixesClean(fields[i].1);
      }
      assert pairs == fields;
      assert [] + fields == fields;
      AssignAllFresh([], fields);
    case _ =>
  }

  /** A second pass of `replaceKeys` changes nothing. */
  lemma SanitizeIdempotent(v: Value)
    ensures Sanitize(Sanitize(v)) == Sanitize(v)
  {
    SanitizeFixesClean(Sanitize(v));
  }

  /** Arrays are rebuilt element by element, in order. */
  lemma SanitizeArray(items: seq<Value>, i: nat)
    requires i < |items|
    ensures Sanitize(Arr(items)).items[i] == Sanitize(items[i])
  {
  }

  /** An error becomes `{name: err.toString(), message: err.message || 'error'}`. */
  lemma SanitizeError(name: string, message: Option<string>)
    ensures Lookup(Sanitize(Error(name, message)).fields, "name") == Some(Str(ErrorToString(name, message)))
    ensures Lookup(Sanitize(Error(name, message)).fields, "message") == Some(Str(ErrorMessage(message)))
    ensures Keys(Sanitize(Error(name, message)).fields) == ["name", "message"]
  {
  }

  /** In a sanitised object, key `k` holds the sanitised value of the last
      source key that escapes to `k`. */
  lemma SanitizeObjectLookup(fields: seq<(string, Value)>, k: string)
    ensures Lookup(Sanitize(Obj(fields)).fields, k) == LastValue(EscapedPairs(fields), k)
  {
    var pairs := EscapedPairs(fields);
    assert Sanitize(Obj(fields)).fields == AssignAll([], pairs);
    AssignAllLookup([], pairs, k);
  }

  /** A sanitised object has key `k` exactly when some source key escapes to `k`. */
  lemma SanitizeObjectKeys(fields: seq<(string, Value)>, k: string)
    ensures k in Keys(Sanitize(Obj(fields)).fields)
        <==> exists i :: 0 <= i < |fields| && EscapeKey(fields[i].0) == k
  {
    var pairs := EscapedPairs(fields);
    SanitizeObjectLookup(fields, k);
    if k in Keys(pairs) {
      var i :| 0 <= i < |pairs| && Keys(pairs)[i] == k;
      assert EscapeKey(fields[i].0) == k;
    }
    if exists i :: 0 <= i < |fields| && EscapeKey(fields[i].0) == k {
      var i :| 0 <= i < |fields| && EscapeKey(fields[i].0) == k;
      assert Keys(pairs)[i] == k;
    }
  }

  /** Two assignments to the same key leave one field holding the second value. */
  lemma AssignTwice(k: string, a: Value, b: Value)
    ensures AssignAll([], [(k, a), (k, b)]) == [(k, b)]
  {
    var pairs := [(k, a), (k, b)];
    var first := Assign([], k, a);
    assert first == [(k, a)];
    assert Assign(first, k, b) == [(k, b)];
    assert AssignAll([], pairs) == AssignAll(first, pairs[1..]);
    assert pairs[1..] == [(k, b)];
    assert AssignAll(first, pairs[1..]) == AssignAll([(k, b)], []);
  }

  lemma EscapeKeyOfDotted()
    ensures EscapeKey("a.b") == "a_dot_b"
  {
    EscapeDotsOfDot("a", "b");
    assert "a" + "." + "b" == "a.b";
    assert EscapeDots("a") == "a" && EscapeDots("b") == "b";
  }

  lemma EscapedTwoPairs(k1: string, x: Value, k2: string, y: Value)
    ensures EscapedPairs([(k1, x), (k2, y)]) == [(EscapeKey(k1), Sanitize(x)), (EscapeKey(k2), Sanitize(y))]
  {
    var r := EscapedPairs([(k1, x), (k2, y)]);
    assert r[0] == (EscapeKey(k1), Sanitize(x));
    assert r[1] == (EscapeKey(k2), Sanitize(y));
  }

  lemma CollidingEscapedPairs(x: Value, y: Value)
    ensures EscapedPairs([("a.b", x), ("a_dot_b", y)])
         == [("a_dot_b", Sanitize(x)), ("a_dot_b", Sanitize(y))]
  {
    EscapedTwoPairs("a.b", x, "a_dot_b", y);
    EscapeKeyOfDotted();
    assert EscapeKey("a_dot_b") == "a_dot_b";
  }

  /** Keys that escape to the same string collapse into one field, and the
      later source key wins: `{"a.b": x, "a_dot_b": y}` is stored as
      `{"a_dot_b": y}`. */
  lemma CollidingKeysCollapse(x: Value, y: Value)
    ensures Sanitize(Obj([("a.b", x), ("a_dot_b", y)])) == Obj([("a_dot_b", Sanitize(y))])
  {
    var fields := [("a.b", x), ("a_dot_b", y)];
    var pairs := [("a_dot_b", Sanitize(x)), ("a_dot_b", Sanitize(y))];
    CollidingEscapedPairs(x, y);
    assert Sanitize(Obj(fields)) == Obj(AssignAll([], pairs));
    AssignTwice("a_dot_b", Sanitize(x), Sanitize(y));
  }
}
