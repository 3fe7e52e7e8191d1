/**
 * The loosely-typed values that Firestore documents and parsed JSON hand to
 * the app (Swift's `Any`), the `as?` casts the app applies to them, and
 * Swift's `compactMap`.
 *
 * A cast is a strict tag test: a number stored as `Num` is a `Double`, one
 * stored as `IntV` is an `Int`, and neither is the other.
 */
module Values {

  datatype Option<T> = None | Some(value: T) {
    /** Swift's `??`. */
    function GetOr(default: T): T {
      if Some? then value else default
    }
  }

  /** A point in time, in seconds since 1 January 1970. */
  type Date = real

  datatype Value =
    | Str(s: string)
    | Num(d: real)
    | IntV(i: int)
    | BoolV(b: bool)
    | Arr(items: seq<Value>)
    | Obj(fields: map<string, Value>)
    | Timestamp(date: Date)
    | Null

  /** A document's data, or a JSON object: `[String: Any]`. */
  type Fields = map<string, Value>

  /** `dict[key]`: nil when the key is absent. */
  function Get(m: Fields, key: string): Option<Value> {
    if key in m then Some(m[key]) else None
  }

  function AsString(v: Option<Value>): Option<string> {
    if v.Some? && v.value.Str? then Some(v.value.s) else None
  }

  function AsDouble(v: Option<Value>): Option<real> {
    if v.Some? && v.value.Num? then Some(v.value.d) else None
  }

  function AsInt(v: Option<Value>): Option<int> {
    if v.Some? && v.value.IntV? then Some(v.value.i) else None
  }

  function AsBool(v: Option<Value>): Option<bool> {
    if v.Some? && v.value.BoolV? then Some(v.value.b) else None
  }

  /** `as? Timestamp` followed by `dateValue()`. */
  function AsTimestamp(v: Option<Value>): Option<Date> {
    if v.Some? && v.value.Timestamp? then Some(v.value.date) else None
  }

  /** `as? [String: Any]`. */
  function AsObject(v: Option<Value>): Option<Fields> {
    if v.Some? && v.value.Obj? then Some(v.value.fields) else None
  }

  /** `as? [String]`: an array all of whose elements are strings. */
  function AsStringArray(v: Option<Value>): (r: Option<seq<string>>)
    ensures r.Some? <==> v.Some? && v.value.Arr? && forall i :: 0 <= i < |v.value.items| ==> v.value.items[i].Str?
    ensures r.Some? ==> |r.value| == |v.value.items| &&
                        forall i :: 0 <= i < |r.value| ==> v.value.items[i] == Str(r.value[i])
  {
    if v.Some? && v.value.Arr? && forall i :: 0 <= i < |v.value.items| ==> v.value.items[i].Str?
    then Some(seq(|v.value.items|, i requires 0 <= i < |v.value.items| => v.value.items[i].s))
    else None
  }

  /** `as? [[String: Any]]`: an array all of whose elements are objects. */
  function AsObjectArray(v: Option<Value>): (r: Option<seq<Fields>>)
    ensures r.Some? <==> v.Some? && v.value.Arr? && forall i :: 0 <= i < |v.value.items| ==> v.value.items[i].Obj?
    ensures r.Some? ==> |r.value| == |v.value.items| &&
                        forall i :: 0 <= i < |r.value| ==> v.value.items[i] == Obj(r.value[i])
  {
    if v.Some? && v.value.Arr? && forall i :: 0 <= i < |v.value.items| ==> v.value.items[i].Obj?
    then Some(seq(|v.value.items|, i requires 0 <= i < |v.value.items| => v.value.items[i].fields))
    else None
  }

  /** `as? [String: Double]`: an object all of whose values are `Double`s. */
  function AsDoubleMap(v: Option<Value>): (r: Option<map<string, real>>)
    ensures r.Some? <==> v.Some? && v.value.Obj? && forall k :: k in v.value.fields ==> v.value.fields[k].Num?
    ensures r.Some? ==> r.value.Keys == v.value.fields.Keys &&
                        forall k :: k in r.value ==> v.value.fields[k] == Num(r.value[k])
  {
    if v.Some? && v.value.Obj? && forall k :: k in v.value.fields ==> v.value.fields[k].Num?
    then Some(map k | k in v.value.fields :: v.value.fields[k].d)
    else None
  }

  /** The value a `[String]` is stored as. */
  function StringArray(ss: seq<string>): (v: Value)
    ensures AsStringArray(Some(v)) == Some(ss)
  {
    var items := seq(|ss|, i requires 0 <= i < |ss| => Str(ss[i]));
    assert forall i :: 0 <= i < |items| ==> items[i].Str?;
    var back := AsStringArray(Some(Arr(items)));
    assert back.Some? && |back.value| == |ss|;
    assert forall i :: 0 <= i < |ss| ==> back.value[i] == ss[i];
    assert back.value == ss;
    Arr(items)
  }

  /** Swift's `compactMap`: keep the non-nil results of `f`, in order. */
  function CompactMap<A, B>(s: seq<A>, f: A -> Option<B>): (r: seq<B>)
    ensures |r| <= |s|
  {
    if s == [] then []
    else
      var rest := CompactMap(s[1..], f);
      if f(s[0]).Some? then [f(s[0]).value] + rest else rest
  }

  /** How many elements of `s` `f` keeps. */
  function CountSome<A, B>(s: seq<A>, f: A -> Option<B>): nat {
    if s == [] then 0 else (if f(s[0]).Some? then 1 else 0) + CountSome(s[1..], f)
  }

  lemma {:induction false} CompactMapAppend<A, B>(s: seq<A>, t: seq<A>, f: A -> Option<B>)
    ensures CompactMap(s + t, f) == CompactMap(s, f) + CompactMap(t, f)
  {
    if s == [] {
      assert s + t == t;
    } else {
      assert (s + t)[1..] == s[1..] + t;
      CompactMapAppend(s[1..], t, f);
    }
  }

  /** Appending one element appends its result, if `f` keeps it. */
  lemma CompactMapSnoc<A, B>(s: seq<A>, x: A, f: A -> Option<B>)
    ensures CompactMap(s + [x], f) == CompactMap(s, f) + (if f(x).Some? then [f(x).value] else [])
  {
    CompactMapAppend(s, [x], f);
    assert [x][1..] == [];
  }

  /** The output has exactly one element per input element that `f` accepts. */
  lemma {:induction false} CompactMapLength<A, B>(s: seq<A>, f: A -> Option<B>)
    ensures |CompactMap(s, f)| == CountSome(s, f)
  {
    if s != [] {
      CompactMapLength(s[1..], f);
    }
  }

  /** When `f` accepts everything, `compactMap` is `map`. */
  lemma {:induction false} CompactMapTotal<A, B>(s: seq<A>, f: A -> Option<B>)
    requires forall i :: 0 <= i < |s| ==> f(s[i]).Some?
    ensures |CompactMap(s, f)| == |s|
    ensures forall i :: 0 <= i < |s| ==> CompactMap(s, f)[i] == f(s[i]).value
  {
    if s != [] {
      CompactMapTotal(s[1..], f);
    }
  }

  /** Every output element is the result of `f` on some input element. */
  lemma {:induction false} CompactMapSound<A, B>(s: seq<A>, f: A -> Option<B>, k: nat)
    requires k < |CompactMap(s, f)|
    ensures exists i :: 0 <= i < |s| && f(s[i]) == Some(CompactMap(s, f)[k])
  {
    if f(s[0]).Some? {
      if k > 0 {
        CompactMapSound(s[1..], f, k - 1);
        var i :| 0 <= i < |s[1..]| && f(s[1..][i]) == Some(CompactMap(s[1..], f)[k - 1]);
        assert f(s[i + 1]) == Some(CompactMap(s, f)[k]);
      } else {
        assert f(s[0]) == Some(CompactMap(s, f)[k]);
      }
    } else {
      CompactMapSound(s[1..], f, k);
      var i :| 0 <= i < |s[1..]| && f(s[1..][i]) == Some(CompactMap(s[1..], f)[k]);
      assert f(s[i + 1]) == Some(CompactMap(s, f)[k]);
    }
  }

  /**
   * Every element `f` keeps reaches the output, at the position given by
   * how many elements before it are kept.
   */
  lemma CompactMapComplete<A, B>(s: seq<A>, f: A -> Option<B>, i: nat)
    requires i < |s| && f(s[i]).Some?
    ensures CountSome(s[..i], f) < |CompactMap(s, f)|
    ensures CompactMap(s, f)[CountSome(s[..i], f)] == f(s[i]).value
  {
    assert s == s[..i] + s[i..];
    CompactMapAppend(s[..i], s[i..], f);
    CompactMapLength(s[..i], f);
    assert s[i..][0] == s[i];
  }

  /** When `f` keeps nothing, nothing comes out. */
  lemma {:induction false} CompactMapNone<A, B>(s: seq<A>, f: A -> Option<B>)
    requires forall i :: 0 <= i < |s| ==> f(s[i]).None?
    ensures CompactMap(s, f) == []
  {
    if s != [] {
      assert forall i :: 0 <= i < |s[1..]| ==> s[1..][i] == s[i + 1];
      CompactMapNone(s[1..], f);
    }
  }
}
