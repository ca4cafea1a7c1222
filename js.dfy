/**
  The slice of JavaScript's value model that the store code relies on: plain
  values, objects as finite maps from property names to values, truthiness,
  strict equality, optional chaining, object spread with overrides, and
  `String.prototype.split` with a non-empty separator.
 */
module Js {

  datatype Option<+T> = None | Some(value: T)

  /** A JavaScript value as far as this program inspects it. Numbers are
      integers (the code only compares them and stores timestamps); an object
      or array is a reference `Ref(addr)`, so that `===` on two references is
      the identity of their addresses and `==` on `Value` is exactly `===`. */
  datatype Value =
    | Undefined
    | Null
    | Bool(b: bool)
    | Num(n: int)
    | Str(s: string)
    | Ref(addr: nat)

  /** A plain object: its own enumerable properties. */
  type Obj = map<string, Value>

  /** Property read `o.key`: a missing property reads as `undefined`. */
  function Get(o: Obj, key: string): Value
  {
    if key in o then o[key] else Undefined
  }

  /** Optional chaining `o?.key` where `o` may be `null`. */
  function GetOpt(o: Option<Obj>, key: string): Value
  {
    match o
    case None => Undefined
    case Some(obj) => Get(obj, key)
  }

  /** JavaScript truthiness (`!!v`). */
  predicate Truthy(v: Value)
  {
    match v
    case Undefined => false
    case Null => false
    case Bool(b) => b
    case Num(n) => n != 0
    case Str(s) => s != ""
    case Ref(_) => true
  }

  /** `{ ...o, [key]: v }`: a copy of `o` with one property overridden. */
  function With(o: Obj, key: string, v: Value): (r: Obj)
    ensures Get(r, key) == v
    ensures forall k :: k != key ==> Get(r, k) == Get(o, k)
    ensures r.Keys == o.Keys + {key}
  {
    o[key := v]
  }

  predicate StartsWith(s: string, prefix: string)
  {
    |prefix| <= |s| && s[..|prefix|] == prefix
  }

  /** `sep` occurs in `s` at position `i`. */
  predicate OccursAt(s: string, sep: string, i: nat)
  {
    i + |sep| <= |s| && s[i..i + |sep|] == sep
  }

  /** `s` holds no occurrence of `sep`. */
  predicate Free(s: string, sep: string)
  {
    forall j: nat :: j < |s| ==> !OccursAt(s, sep, j)
  }

  /** The first position at or after `from` where `sep` occurs in `s`. */
  function IndexFrom(s: string, sep: string, from: nat): (r: Option<nat>)
    requires sep != ""
    ensures r.Some? ==> from <= r.value && OccursAt(s, sep, r.value)
    ensures r.Some? ==> forall j :: from <= j < r.value ==> !OccursAt(s, sep, j)
    ensures r.None? ==> forall j :: from <= j ==> !OccursAt(s, sep, j)
    decreases |s| - from
  {
    if from + |sep| > |s| then None
    else if s[from..from + |sep|] == sep then Some(from)
    else IndexFrom(s, sep, from + 1)
  }

  /** `s.indexOf(sep)`, with `None` for -1. */
  function IndexOf(s: string, sep: string): Option<nat>
    requires sep != ""
  {
    IndexFrom(s, sep, 0)
  }

  /** `s.split(sep)` for a non-empty separator: the pieces between the
      occurrences of `sep`, found left to right without overlap. */
  function Split(s: string, sep: string): (parts: seq<string>)
    requires sep != ""
    ensures |parts| >= 1
    ensures forall k :: 0 <= k < |parts| ==> Free(parts[k], sep)
    ensures |parts| == 1 ==> parts[0] == s
    ensures |parts| > 1 ==> StartsWith(s, parts[0] + sep)
    decreases |s|
  {
    match IndexOf(s, sep)
    case None => [s]
    case Some(i) =>
      NoOccurrenceInPrefix(s, sep, i);
      assert s[..i + |sep|] == s[..i] + sep by {
        assert s[i..i + |sep|] == sep;
      }
      [s[..i]] + Split(s[i + |sep|..], sep)
  }

  /** `parts.join(sep)`. */
  function Join(parts: seq<string>, sep: string): string
    requires |parts| >= 1
  {
    if |parts| == 1 then parts[0] else parts[0] + sep + Join(parts[1..], sep)
  }

  /** A prefix of `s` that ends before the first occurrence of `sep` holds no
      occurrence of `sep`. */
  lemma NoOccurrenceInPrefix(s: string, sep: string, i: nat)
    requires sep != "" && i <= |s|
    requires forall j :: 0 <= j < i ==> !OccursAt(s, sep, j)
    ensures Free(s[..i], sep)
  {
    forall j: nat | OccursAt(s[..i], sep, j)
      ensures false
    {
      assert s[..i][j..j + |sep|] == s[j..j + |sep|];
      assert OccursAt(s, sep, j);
    }
  }

  /** Splitting and joining again gives back the original string. */
  lemma {:induction false} JoinSplit(s: string, sep: string)
    requires sep != ""
    ensures Join(Split(s, sep), sep) == s
    decreases |s|
  {
    var r := IndexOf(s, sep);
    if r.Some? {
      var i := r.value;
      var rest := s[i + |sep|..];
      SplitAt(s, sep, i);
      JoinSplit(rest, sep);
      var tail := Split(rest, sep);
      assert Join([s[..i]] + tail, sep) == s[..i] + sep + Join(tail, sep);
    }
  }

  /** One step of `Split` at the first occurrence `i` of `sep`. */
  lemma SplitAt(s: string, sep: string, i: nat)
    requires sep != "" && IndexOf(s, sep) == Some(i)
    ensures Split(s, sep) == [s[..i]] + Split(s[i + |sep|..], sep)
    ensures s == s[..i] + sep + s[i + |sep|..]
  {
    assert s[i..i + |sep|] == sep;
    assert s == s[..i] + s[i..i + |sep|] + s[i + |sep|..];
  }

  /** Splitting on a one-character separator a string that starts with
      `head` + `sep`, where `head` holds no `sep`, yields `head` first and then
      the split of the remainder. */
  lemma SplitAfterHead(s: string, head: string, sep: string)
    requires |sep| == 1
    requires StartsWith(s, head + sep)
    requires Free(head, sep)
    ensures Split(s, sep) == [head] + Split(s[|head| + 1..], sep)
  {
    var n := |head|;
    assert s[..n + 1] == head + sep;
    assert OccursAt(s, sep, n) by {
      assert s[n..n + 1] == (head + sep)[n..];
    }
    forall j | 0 <= j < n
      ensures !OccursAt(s, sep, j)
    {
      assert s[j..j + 1] == head[j..j + 1];
      assert !OccursAt(head, sep, j);
    }
    assert IndexOf(s, sep) == Some(n);
    assert s[..n] == head by {
      assert s[..n + 1][..n] == s[..n];
    }
  }

  /** A string holding no `sep` splits into itself alone. */
  lemma SplitFree(s: string, sep: string)
    requires sep != "" && Free(s, sep)
    ensures Split(s, sep) == [s]
  {
    var r := IndexOf(s, sep);
    if r.Some? {
      assert false;
    }
  }
}
