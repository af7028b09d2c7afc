/**
  Python-side values the core passes around: the JSON documents that
  `response.json()` and `json.loads` produce, the exceptions the handlers
  raise and catch, and the built-in operations the core applies to them
  (subscripting with a string key, iteration, truthiness, `str()` of an int,
  `str.join`, `str.split` and the dict union `a | b`).
*/
module PyValues {

  datatype Option<+T> = None | Some(value: T)

  datatype Result<+T, +E> = Ok(value: T) | Err(error: E)

  /** A JSON value as `json.loads` builds it. An object keeps its entries in
      insertion order, as a Python dict does. */
  datatype Json =
    | JNull
    | JBool(b: bool)
    | JInt(i: int)
    | JFloat(f: real)
    | JStr(s: string)
    | JArr(items: seq<Json>)
    | JObj(fields: seq<(string, Json)>)

  /** The entries of a dict, in insertion order. */
  type Fields = seq<(string, Json)>

  function Keys(d: Fields): seq<string> {
    seq(|d|, i requires 0 <= i < |d| => d[i].0)
  }

  /** What every Python dict satisfies: no key occurs twice. */
  ghost predicate UniqueKeys(d: Fields) {
    forall i, j :: 0 <= i < j < |d| ==> d[i].0 != d[j].0
  }

  /** `d.get(k)`: the value stored under `k`, looked up front to back. */
  function Get(d: Fields, k: string): (r: Option<Json>)
    ensures r.Some? <==> k in Keys(d)
    ensures r.Some? ==> exists i :: 0 <= i < |d| && d[i] == (k, r.value)
  {
    if d == [] then None
    else if d[0].0 == k then
      assert Keys(d)[0] == k;
      Some(d[0].1)
    else
      assert Keys(d) == [d[0].0] + Keys(d[1..]);
      var r := Get(d[1..], k);
      assert r.Some? ==> exists i :: 0 <= i < |d| && d[i] == (k, r.value) by {
        if r.Some? {
          var i :| 0 <= i < |d[1..]| && d[1..][i] == (k, r.value);
          assert d[i + 1] == (k, r.value);
        }
      }
      r
  }

  /** The Python type name of a value, as error messages spell it. */
  function TypeName(v: Json): string {
    match v
    case JNull => "NoneType"
    case JBool(_) => "bool"
    case JInt(_) => "int"
    case JFloat(_) => "float"
    case JStr(_) => "str"
    case JArr(_) => "list"
    case JObj(_) => "dict"
  }

  /** The exceptions the core raises or lets through. `str(e)` is `Str(e)`. */
  datatype Exc =
    | KeyError(key: string)
    | TypeError(message: string)
    | JsonDecodeError(message: string)
    | RequestFailure(message: string)
    | ExpiredToken(message: string)
    | StateMismatch(message: string)
    | InternalServer(message: string)
    | ChainFailure(message: string)

  /** `str(e)`: a KeyError shows its key quoted; every other exception its message. */
  function Str(e: Exc): (s: string)
    ensures e.KeyError? ==> |s| == |e.key| + 2 && s[0] == '\'' == s[|s| - 1] && s[1..|s| - 1] == e.key
    ensures !e.KeyError? ==> s == e.message
  {
    match e
    case KeyError(k) => "'" + k + "'"
    case TypeError(m) => m
    case JsonDecodeError(m) => m
    case RequestFailure(m) => m
    case ExpiredToken(m) => m
    case StateMismatch(m) => m
    case InternalServer(m) => m
    case ChainFailure(m) => m
  }

  /** `v[k]` for a string key `k`: only a dict can be subscripted by a string. */
  function Index(v: Json, k: string): (r: Result<Json, Exc>)
    ensures r.Ok? <==> v.JObj? && k in Keys(v.fields)
    ensures r.Ok? ==> Get(v.fields, k) == Some(r.value)
    ensures v.JObj? && r.Err? ==> r.error == KeyError(k)
  {
    match v
    case JObj(f) =>
      (match Get(f, k)
       case Some(x) => Ok(x)
       case None => Err(KeyError(k)))
    case JArr(_) => Err(TypeError("list indices must be integers or slices, not str"))
    case JStr(_) => Err(TypeError("string indices must be integers, not 'str'"))
    case _ => Err(TypeError("'" + TypeName(v) + "' object is not subscriptable"))
  }

  /** `v[path[0]][path[1]]...`: chained subscripts, failing at the first step that fails. */
  function At(v: Json, path: seq<string>): Result<Json, Exc>
    decreases |path|
  {
    if path == [] then Ok(v)
    else
      match Index(v, path[0])
      case Err(e) => Err(e)
      case Ok(w) => At(w, path[1..])
  }

  /** The elements a `for` clause visits: a list's items, a dict's keys, a string's characters. */
  function Iterate(v: Json): (r: Result<seq<Json>, Exc>)
    ensures v.JArr? ==> r == Ok(v.items)
    ensures r.Ok? <==> v.JArr? || v.JObj? || v.JStr?
    ensures v.JObj? ==>
      (r.Ok? && |r.value| == |v.fields|
       && forall i :: 0 <= i < |v.fields| ==> r.value[i] == JStr(v.fields[i].0))
    ensures v.JStr? ==>
      (r.Ok? && |r.value| == |v.s|
       && forall i :: 0 <= i < |v.s| ==> r.value[i] == JStr([v.s[i]]))
  {
    match v
    case JArr(xs) => Ok(xs)
    case JObj(f) => Ok(seq(|f|, i requires 0 <= i < |f| => JStr(f[i].0)))
    case JStr(s) => Ok(seq(|s|, i requires 0 <= i < |s| => JStr([s[i]])))
    case _ => Err(TypeError("'" + TypeName(v) + "' object is not iterable"))
  }

  /** Python truthiness: `bool(v)`. The falsy values are exactly `None`, `False`, zero,
      and the empty string, list and dict. */
  predicate Truthy(v: Json)
    ensures !Truthy(v) <==>
      v in {JNull, JBool(false), JInt(0), JFloat(0.0), JStr(""), JArr([]), JObj([])}
  {
    match v
    case JNull => false
    case JBool(b) => b
    case JInt(i) => i != 0
    case JFloat(f) => f != 0.0
    case JStr(s) => s != []
    case JArr(xs) => xs != []
    case JObj(f) => f != []
  }

  /** Truthiness of an optional string (`None` and `""` are false). */
  predicate Present(s: Option<string>) {
    s.Some? && s.value != ""
  }

  /** `f"{v}"`: a string formats as itself; other values through `strOf`, which
      stands for Python's `str()` of them. */
  function Format(v: Json, strOf: Json -> string): (s: string)
    ensures v.JStr? ==> s == v.s
  {
    if v.JStr? then v.s else strOf(v)
  }

  /** `str(n)` for a non-negative integer. */
  function Decimal(n: nat): (s: string)
    ensures |s| >= 1
    ensures forall i :: 0 <= i < |s| ==> '0' <= s[i] <= '9'
    ensures n == 0 <==> s == "0"
    ensures n > 0 ==> s[0] != '0'
  {
    if n < 10 then ["0123456789"[n]] else Decimal(n / 10) + ["0123456789"[n % 10]]
  }

  /** The number a string of decimal digits spells. */
  function DigitsValue(s: string): nat
    requires forall i :: 0 <= i < |s| ==> '0' <= s[i] <= '9'
    decreases |s|
  {
    if s == [] then 0
    else DigitsValue(s[..|s| - 1]) * 10 + (s[|s| - 1] as int - '0' as int)
  }

  lemma DigitValue(d: nat)
    requires d < 10
    ensures "0123456789"[d] as int - '0' as int == d
  {
    assert "0123456789"[d] as int == '0' as int + d by {
      if d == 0 {} else if d == 1 {} else if d == 2 {} else if d == 3 {} else if d == 4 {}
      else if d == 5 {} else if d == 6 {} else if d == 7 {} else if d == 8 {} else {}
    }
  }

  /** A three-digit number has three digits. */
  lemma DecimalLength(n: nat)
    requires 100 <= n < 1000
    ensures |Decimal(n)| == 3
  {
    assert |Decimal(n / 100)| == 1;
    assert |Decimal(n / 10)| == |Decimal(n / 10 / 10)| + 1;
    assert n / 10 / 10 == n / 100;
  }

  /** The digits of `str(n)` spell `n`. */
  lemma {:induction false} DecimalReadsBack(n: nat)
    ensures DigitsValue(Decimal(n)) == n
    decreases n
  {
    if n < 10 {
      DigitValue(n);
      assert Decimal(n)[..0] == [];
    } else {
      var s := Decimal(n);
      DecimalReadsBack(n / 10);
      DigitValue(n % 10);
      assert s[..|s| - 1] == Decimal(n / 10);
      assert s[|s| - 1] == "0123456789"[n % 10];
    }
  }

  /** `sep.join(parts)`. */
  function Join(parts: seq<string>, sep: string): string
    decreases |parts|
  {
    if |parts| == 0 then ""
    else if |parts| == 1 then parts[0]
    else Join(parts[..|parts| - 1], sep) + sep + parts[|parts| - 1]
  }

  /** Concatenation regroups. */
  lemma Append3<T>(a: seq<T>, b: seq<T>, c: seq<T>)
    ensures a + b + c == a + (b + c)
  {
  }

  /** Joining one more part adds the separator and the part at the end. */
  lemma JoinSnoc(parts: seq<string>, sep: string, x: string)
    requires |parts| >= 1
    ensures Join(parts + [x], sep) == Join(parts, sep) + sep + x
  {
    assert (parts + [x])[..|parts|] == parts;
  }

  /** `s.split(c)` for a one-character separator. */
  function Split(s: string, c: char): (parts: seq<string>)
    ensures |parts| >= 1
    decreases |s|
  {
    if s == [] then [""]
    else
      var init := Split(s[..|s| - 1], c);
      var last := s[|s| - 1];
      if last == c then init + [""]
      else init[..|init| - 1] + [init[|init| - 1] + [last]]
  }

  /** One more character: a separator opens an empty last part, any other character
      extends the last part. */
  lemma SplitSnoc(s: string, c: char, d: char)
    ensures var init := Split(s, c);
      Split(s + [d], c)
        == if d == c then init + [""] else init[..|init| - 1] + [init[|init| - 1] + [d]]
  {
    var t := s + [d];
    assert t[..|t| - 1] == s && t[|t| - 1] == d;
  }

  /** No part holds the separator. */
  lemma {:induction false} SplitParts(s: string, c: char)
    ensures forall i :: 0 <= i < |Split(s, c)| ==> c !in Split(s, c)[i]
    decreases |s|
  {
    if s != [] {
      var p, d := s[..|s| - 1], s[|s| - 1];
      assert s == p + [d];
      SplitParts(p, c);
      SplitSnoc(p, c, d);
      var init := Split(p, c);
      if d != c {
        var n := |init|;
        var parts := init[..n - 1] + [init[n - 1] + [d]];
        assert c !in init[n - 1] + [d];
        forall i | 0 <= i < |parts| ensures c !in parts[i] {
          if i < n - 1 { assert parts[i] == init[i]; }
        }
      }
    }
  }

  /** Joining the parts with the separator gives the text back. */
  lemma {:induction false} SplitJoins(s: string, c: char)
    ensures Join(Split(s, c), [c]) == s
    decreases |s|
  {
    if s != [] {
      var p, d := s[..|s| - 1], s[|s| - 1];
      assert s == p + [d];
      SplitJoins(p, c);
      SplitSnoc(p, c, d);
      var init := Split(p, c);
      var n := |init|;
      if d == c {
        JoinSnoc(init, [c], "");
      } else if n > 1 {
        assert init == init[..n - 1] + [init[n - 1]];
        JoinSnoc(init[..n - 1], [c], init[n - 1]);
        JoinSnoc(init[..n - 1], [c], init[n - 1] + [d]);
      }
    }
  }

  /** A text without the separator splits into itself. */
  lemma {:induction false} SplitNoSeparator(s: string, c: char)
    requires c !in s
    ensures Split(s, c) == [s]
    decreases |s|
  {
    if s != [] {
      var init := s[..|s| - 1];
      assert c !in init by {
        forall i | 0 <= i < |init| ensures init[i] != c { assert init[i] == s[i]; }
      }
      SplitNoSeparator(init, c);
      assert s[|s| - 1] in s;
      assert init + [s[|s| - 1]] == s;
    }
  }

  /** A character other than the separator extends the last part. */
  lemma SplitExtend(s: string, c: char, d: char, parts: seq<string>, last: string)
    requires d != c && Split(s, c) == parts + [last]
    ensures Split(s + [d], c) == parts + [last + [d]]
  {
    SplitSnoc(s, c, d);
    var init := parts + [last];
    assert init[..|init| - 1] == parts;
  }

  /** A separator followed by a separator-free tail: the tail is the last part. */
  lemma {:induction false} SplitAppend(x: string, c: char, y: string)
    requires c !in y
    ensures Split(x + [c] + y, c) == Split(x, c) + [y]
    decreases |y|
  {
    if y == [] {
      assert x + [c] + y == x + [c];
      SplitSnoc(x, c, c);
    } else {
      var y', d := y[..|y| - 1], y[|y| - 1];
      assert c !in y' by {
        forall i | 0 <= i < |y'| ensures y'[i] != c { assert y'[i] == y[i]; }
      }
      assert d in y;
      SplitAppend(x, c, y');
      SplitExtend(x + [c] + y', c, d, Split(x, c), y');
      assert (x + [c] + y') + [d] == x + [c] + y;
      assert y' + [d] == y;
    }
  }

  /** Splitting undoes joining, when no part contains the separator. */
  lemma {:induction false} SplitJoin(parts: seq<string>, c: char)
    requires |parts| >= 1
    requires forall i :: 0 <= i < |parts| ==> c !in parts[i]
    ensures Split(Join(parts, [c]), c) == parts
    decreases |parts|
  {
    if |parts| == 1 {
      SplitNoSeparator(parts[0], c);
    } else {
      var init := parts[..|parts| - 1];
      SplitJoin(init, c);
      SplitAppend(Join(init, [c]), c, parts[|parts| - 1]);
      assert init + [parts[|parts| - 1]] == parts;
    }
  }

  /** The position of the first element of `items` that is not a string, or `|items|`. */
  function FirstNonString(items: seq<Json>): (k: nat)
    ensures k <= |items|
    ensures forall i :: 0 <= i < k ==> items[i].JStr?
    ensures k < |items| ==> !items[k].JStr?
  {
    if items == [] then 0
    else if !items[0].JStr? then 0
    else 1 + FirstNonString(items[1..])
  }

  /** `sep.join(items)` over arbitrary values: a TypeError names the first non-string item. */
  function JoinItems(items: seq<Json>, sep: string): (r: Result<string, Exc>)
    ensures r.Ok? <==> forall i :: 0 <= i < |items| ==> items[i].JStr?
    ensures r.Ok? ==> r.value == Join(Strings(items), sep)
  {
    var k := FirstNonString(items);
    if k < |items| then
      Err(TypeError("sequence item " + Decimal(k) + ": expected str instance, "
                    + TypeName(items[k]) + " found"))
    else Ok(Join(Strings(items), sep))
  }

  /** The texts of a sequence of JSON values, with `""` for a non-string. */
  function Strings(items: seq<Json>): (r: seq<string>)
    ensures |r| == |items|
    ensures forall i :: 0 <= i < |items| && items[i].JStr? ==> r[i] == items[i].s
  {
    seq(|items|, i requires 0 <= i < |items| => if items[i].JStr? then items[i].s else "")
  }

  // ---- dict union `a | b` ----

  /** The entries of `a`, each with its value replaced by `b`'s when `b` has the key. */
  function Override(a: Fields, b: Fields): (r: Fields)
    ensures Keys(r) == Keys(a)
  {
    if a == [] then []
    else
      var v := match Get(b, a[0].0) case Some(w) => w case None => a[0].1;
      assert Keys(a) == [a[0].0] + Keys(a[1..]);
      var rest := Override(a[1..], b);
      assert Keys([(a[0].0, v)] + rest) == [a[0].0] + Keys(rest);
      [(a[0].0, v)] + rest
  }

  /** The entries of `b` whose key `a` does not have, in `b`'s order. */
  function Additions(b: Fields, a: Fields): Fields {
    if b == [] then []
    else if b[0].0 in Keys(a) then Additions(b[1..], a)
    else [b[0]] + Additions(b[1..], a)
  }

  lemma {:induction false} KeysAppend(x: Fields, y: Fields)
    ensures Keys(x + y) == Keys(x) + Keys(y)
  {
  }

  lemma {:induction false} GetAppend(x: Fields, y: Fields, k: string)
    ensures Get(x + y, k) == if k in Keys(x) then Get(x, k) else Get(y, k)
    decreases |x|
  {
    if x == [] {
      assert x + y == y;
    } else {
      assert (x + y)[0] == x[0];
      assert Keys(x) == [x[0].0] + Keys(x[1..]);
      if x[0].0 == k {
        assert Keys(x)[0] == k;
      } else {
        assert (x + y)[1..] == x[1..] + y;
        GetAppend(x[1..], y, k);
        assert Get(x + y, k) == Get(x[1..] + y, k);
        assert k in Keys(x) <==> k in Keys(x[1..]);
      }
    }
  }

  lemma {:induction false} GetOverride(a: Fields, b: Fields, k: string)
    ensures Get(Override(a, b), k) ==
      if k !in Keys(a) then None else if k in Keys(b) then Get(b, k) else Get(a, k)
    decreases |a|
  {
    if a != [] {
      assert Keys(a) == [a[0].0] + Keys(a[1..]);
      GetOverride(a[1..], b, k);
    }
  }

  lemma {:induction false} GetAdditions(b: Fields, a: Fields, k: string)
    ensures Get(Additions(b, a), k) == if k in Keys(a) then None else Get(b, k)
    decreases |b|
  {
    if b != [] {
      GetAdditions(b[1..], a, k);
    }
  }

  lemma {:induction false} AdditionsKeys(b: Fields, a: Fields)
    ensures forall i :: 0 <= i < |Additions(b, a)| ==>
      Additions(b, a)[i].0 !in Keys(a) && Additions(b, a)[i] in b
    ensures UniqueKeys(b) ==> UniqueKeys(Additions(b, a))
    decreases |b|
  {
    if b != [] {
      AdditionsKeys(b[1..], a);
      var rest := Additions(b[1..], a);
      if b[0].0 !in Keys(a) && UniqueKeys(b) {
        assert forall i :: 0 <= i < |rest| ==> rest[i].0 != b[0].0 by {
          forall i | 0 <= i < |rest| ensures rest[i].0 != b[0].0 {
            var j :| 0 <= j < |b[1..]| && b[1..][j] == rest[i];
            assert b[j + 1] == rest[i];
          }
        }
      }
    }
  }

  lemma {:induction false} UnionLookups(a: Fields, b: Fields)
    ensures var r := Override(a, b) + Additions(b, a);
      && (forall k :: Get(r, k) == if k in Keys(b) then Get(b, k) else Get(a, k))
      && (forall k :: k in Keys(r) <==> k in Keys(a) || k in Keys(b))
  {
    var o, n := Override(a, b), Additions(b, a);
    forall k
      ensures Get(o + n, k) == (if k in Keys(b) then Get(b, k) else Get(a, k))
      ensures k in Keys(o + n) <==> k in Keys(a) || k in Keys(b)
    {
      GetAppend(o, n, k);
      GetOverride(a, b, k);
      GetAdditions(b, a, k);
    }
  }

  lemma {:induction false} UnionPositions(a: Fields, b: Fields)
    ensures var r := Override(a, b) + Additions(b, a);
      |a| <= |r| && Keys(r)[..|a|] == Keys(a)
  {
    KeysAppend(Override(a, b), Additions(b, a));
  }

  lemma {:induction false} UnionUnique(a: Fields, b: Fields)
    ensures UniqueKeys(a) && UniqueKeys(b) ==> UniqueKeys(Override(a, b) + Additions(b, a))
  {
    var o, n := Override(a, b), Additions(b, a);
    AdditionsKeys(b, a);
    if UniqueKeys(a) && UniqueKeys(b) {
      assert UniqueKeys(o) by {
        forall i, j | 0 <= i < j < |o| ensures o[i].0 != o[j].0 {
          assert Keys(o)[i] == Keys(a)[i] && Keys(o)[j] == Keys(a)[j];
        }
      }
      forall i, j | 0 <= i < j < |o + n| ensures (o + n)[i].0 != (o + n)[j].0 {
        if j >= |o| && i < |o| {
          assert (o + n)[i].0 == Keys(a)[i];
          assert (o + n)[j] == n[j - |o|];
        }
      }
    }
  }

  /** `a | b`: every key of either operand; `b`'s value wins on a clash; `a`'s keys
      keep their positions and `b`'s new keys follow in `b`'s order. */
  function Union(a: Fields, b: Fields): (r: Fields)
    ensures forall k :: k in Keys(r) <==> k in Keys(a) || k in Keys(b)
    ensures forall k :: k in Keys(b) ==> Get(r, k) == Get(b, k)
    ensures forall k :: k in Keys(a) && k !in Keys(b) ==> Get(r, k) == Get(a, k)
    ensures |a| <= |r| && Keys(r)[..|a|] == Keys(a)
    ensures UniqueKeys(a) && UniqueKeys(b) ==> UniqueKeys(r)
  {
    UnionLookups(a, b);
    UnionPositions(a, b);
    UnionUnique(a, b);
    Override(a, b) + Additions(b, a)
  }
}
