/** Python values as the pipeline sees them: decoded JSON documents, Python's
    truthiness, `str()`, `int()`, and the string methods the scripts call
    (`strip`, `lower`, `removeprefix`, `removesuffix`, `replace`, `in`,
    `join`). Every fallible Python operation returns a `Result` whose error
    text names the exception the interpreter would raise. */
module PyValues {

  datatype Option<+T> = None | Some(value: T)

  datatype Result<+T> = Ok(value: T) | Err(msg: string)

  /** A decoded JSON document. Objects keep their members in document order,
      as a Python dict does. Floats are not modelled. */
  datatype Json =
    | JNull
    | JBool(b: bool)
    | JInt(i: int)
    | JStr(s: string)
    | JArr(items: seq<Json>)
    | JObj(fields: seq<(string, Json)>)

  /** What `json.loads` makes of a text: a document, or a JSONDecodeError
      with its message and position. */
  datatype Decoded = Parsed(value: Json) | DecodeError(what: string, line: nat, col: nat, pos: nat)

  /** `str()` of a JSONDecodeError. */
  function DecodeErrorText(what: string, line: nat, col: nat, pos: nat): string {
    what + ": line " + NatToString(line) + " column " + NatToString(col) + " (char " + NatToString(pos) + ")"
  }

  /** The value stored under `key`; with repeated keys the later one wins,
      as it does when Python builds a dict from a JSON object. */
  function Lookup(fields: seq<(string, Json)>, key: string): (r: Option<Json>)
    ensures r.Some? <==> exists k :: 0 <= k < |fields| && fields[k].0 == key
    ensures r.Some? ==> exists k :: 0 <= k < |fields| && fields[k] == (key, r.value)
  {
    if |fields| == 0 then None
    else if fields[|fields| - 1].0 == key then Some(fields[|fields| - 1].1)
    else Lookup(fields[..|fields| - 1], key)
  }

  predicate DistinctKeys(fields: seq<(string, Json)>) {
    forall i, j :: 0 <= i < j < |fields| ==> fields[i].0 != fields[j].0
  }

  /** In an object without repeated keys every member is found under its key. */
  lemma {:induction false} LookupDistinct(fields: seq<(string, Json)>, k: nat)
    requires DistinctKeys(fields) && k < |fields|
    ensures Lookup(fields, fields[k].0) == Some(fields[k].1)
  {
    if k < |fields| - 1 {
      var init := fields[..|fields| - 1];
      assert init[k] == fields[k];
      LookupDistinct(init, k);
    }
  }

  /** `type(v).__name__`. */
  function TypeName(v: Json): string {
    match v
    case JNull => "NoneType"
    case JBool(_) => "bool"
    case JInt(_) => "int"
    case JStr(_) => "str"
    case JArr(_) => "list"
    case JObj(_) => "dict"
  }

  /** `obj.get(key, default)`: only a dict has `.get`; anything else raises
      AttributeError. */
  function Get(obj: Json, key: string, default: Json): (r: Result<Json>)
    ensures r.Ok? <==> obj.JObj?
    ensures obj.JObj? && Lookup(obj.fields, key).None? ==> r == Ok(default)
    ensures obj.JObj? && Lookup(obj.fields, key).Some? ==> r == Ok(Lookup(obj.fields, key).value)
  {
    match obj
    case JObj(fields) =>
      (match Lookup(fields, key)
       case Some(v) => Ok(v)
       case None => Ok(default))
    case _ => Err("AttributeError: '" + TypeName(obj) + "' object has no attribute 'get'")
  }

  /** `obj.get(key)` on a dict, `None` when absent. */
  function MapGet<K, V>(m: map<K, V>, key: K, default: V): (r: V)
    ensures key in m ==> r == m[key]
    ensures key !in m ==> r == default
  {
    if key in m then m[key] else default
  }

  /** Python's truth value. */
  predicate Truthy(v: Json) {
    match v
    case JNull => false
    case JBool(b) => b
    case JInt(i) => i != 0
    case JStr(s) => s != ""
    case JArr(items) => items != []
    case JObj(fields) => fields != []
  }

  /** All values of `rs`, or the first error among them. */
  function Collect<T>(rs: seq<Result<T>>): (r: Result<seq<T>>)
    ensures r.Ok? <==> forall k :: 0 <= k < |rs| ==> rs[k].Ok?
    ensures r.Ok? ==> |r.value| == |rs| && forall k :: 0 <= k < |rs| ==> rs[k] == Ok(r.value[k])
    ensures r.Err? ==> exists k :: 0 <= k < |rs| && rs[k] == Err(r.msg) && forall j :: 0 <= j < k ==> rs[j].Ok?
  {
    if rs == [] then Ok([])
    else
      match rs[0]
      case Err(m) => Err(m)
      case Ok(v) =>
        match Collect(rs[1..])
        case Err(m) =>
          assert forall j :: 1 <= j < |rs| ==> rs[j] == rs[1..][j - 1];
          Err(m)
        case Ok(vs) => Ok([v] + vs)
  }

  lemma CollectAllOk<T>(vs: seq<T>, rs: seq<Result<T>>)
    requires |rs| == |vs| && forall k :: 0 <= k < |rs| ==> rs[k] == Ok(vs[k])
    ensures Collect(rs) == Ok(vs)
  {
    var r := Collect(rs);
    assert r.Ok?;
    assert r.value == vs;
  }

  /** A prefix of all-successful results grows by one more success. */
  lemma CollectSnoc<T>(rs: seq<Result<T>>, i: nat, vs: seq<T>)
    requires i < |rs| && Collect(rs[..i]) == Ok(vs) && rs[i].Ok?
    ensures Collect(rs[..i + 1]) == Ok(vs + [rs[i].value])
  {
    var pre := rs[..i + 1];
    forall k | 0 <= k < |pre|
      ensures pre[k] == Ok((vs + [rs[i].value])[k])
    {
      if k < i {
        assert pre[k] == rs[..i][k];
      }
    }
    CollectAllOk(vs + [rs[i].value], pre);
  }

  /** After a prefix of successes, the first error is the error of all. */
  lemma CollectFirstErr<T>(rs: seq<Result<T>>, i: nat, vs: seq<T>)
    requires i < |rs| && Collect(rs[..i]) == Ok(vs) && rs[i].Err?
    ensures Collect(rs) == Err(rs[i].msg)
  {
    forall j | 0 <= j < i
      ensures rs[j].Ok?
    {
      assert rs[j] == rs[..i][j];
    }
    var r := Collect(rs);
    assert r.Err?;
    var k :| 0 <= k < |rs| && rs[k] == Err(r.msg) && forall j :: 0 <= j < k ==> rs[j].Ok?;
    assert k == i;
  }

  // ---------------------------------------------------------------------
  // Characters and whitespace

  /** `str.isspace()` for one character: the complete set Python 3 treats as
      whitespace. */
  predicate IsSpace(c: char) {
    || c == ' ' || ('\t' <= c <= '\r') || ('\U{1C}' <= c <= '\U{1F}')
    || c == '\U{85}' || c == '\U{A0}' || c == '\U{1680}'
    || ('\U{2000}' <= c <= '\U{200A}') || c == '\U{2028}' || c == '\U{2029}'
    || c == '\U{202F}' || c == '\U{205F}' || c == '\U{3000}'
  }

  predicate AllSpace(s: string) {
    forall k :: 0 <= k < |s| ==> IsSpace(s[k])
  }

  /** Neither end of `s` is whitespace. */
  predicate Trimmed(s: string) {
    s == [] || (!IsSpace(s[0]) && !IsSpace(s[|s| - 1]))
  }

  function LStrip(s: string): (r: string)
    ensures |r| <= |s|
    ensures r == [] || !IsSpace(r[0])
  {
    if s == [] || !IsSpace(s[0]) then s else LStrip(s[1..])
  }

  function RStrip(s: string): (r: string)
    ensures |r| <= |s| && r == s[..|r|]
    ensures r == [] || !IsSpace(r[|r| - 1])
  {
    if s == [] || !IsSpace(s[|s| - 1]) then s else RStrip(s[..|s| - 1])
  }

  /** `lstrip` removes a run of whitespace and nothing else. */
  lemma {:induction false} LStripRemovesSpace(s: string)
    ensures LStrip(s) == s[|s| - |LStrip(s)|..]
    ensures AllSpace(s[..|s| - |LStrip(s)|])
  {
    if s != [] && IsSpace(s[0]) {
      LStripRemovesSpace(s[1..]);
      var n := |s| - |LStrip(s)|;
      assert s[1..][n - 1..] == s[n..];
      assert forall k :: 0 < k < n ==> s[..n][k] == s[1..][..n - 1][k - 1];
    }
  }

  /** `rstrip` likewise, at the other end. */
  lemma {:induction false} RStripRemovesSpace(s: string)
    ensures AllSpace(s[|RStrip(s)|..])
  {
    if s != [] && IsSpace(s[|s| - 1]) {
      RStripRemovesSpace(s[..|s| - 1]);
      var n := |RStrip(s)|;
      assert forall k :: n <= k < |s| - 1 ==> s[k] == s[..|s| - 1][k];
    }
  }

  /** `s.strip()`. */
  function Strip(s: string): string {
    RStrip(LStrip(s))
  }

  /** Nothing left to strip. */
  lemma StripTrimmed(s: string)
    ensures Trimmed(Strip(s))
  {
    var l := LStrip(s);
    var r := RStrip(l);
    assert r != [] ==> r[0] == l[0];
  }

  lemma StripOfTrimmed(s: string)
    requires Trimmed(s)
    ensures Strip(s) == s
  {
  }

  lemma {:induction false} LStripSpacePrefix(w: string, core: string)
    requires AllSpace(w)
    requires core == [] || !IsSpace(core[0])
    ensures LStrip(w + core) == core
  {
    if w != [] {
      assert (w + core)[1..] == w[1..] + core;
      LStripSpacePrefix(w[1..], core);
    }
  }

  lemma {:induction false} RStripSpaceSuffix(core: string, w: string)
    requires AllSpace(w)
    requires core == [] || !IsSpace(core[|core| - 1])
    ensures RStrip(core + w) == core
  {
    if w != [] {
      assert (core + w)[..|core + w| - 1] == core + w[..|w| - 1];
      RStripSpaceSuffix(core, w[..|w| - 1]);
    }
  }

  /** Text written between two newlines comes back from `strip` as written,
      when it has no whitespace at its own ends. */
  lemma StripNewlines(core: string)
    requires Trimmed(core)
    ensures Strip("\n" + core + "\n") == core
  {
    StripAround("\n", core, "\n");
  }

  /** Stripping removes exactly the whitespace around a trimmed core. */
  lemma StripAround(w1: string, core: string, w2: string)
    requires AllSpace(w1) && AllSpace(w2) && Trimmed(core)
    ensures Strip(w1 + core + w2) == core
  {
    if core == [] {
      assert w1 + core + w2 == w1 + w2;
      LStripSpacePrefix(w1 + w2, []);
      assert w1 + w2 + [] == w1 + w2;
    } else {
      assert w1 + core + w2 == w1 + (core + w2);
      LStripSpacePrefix(w1, core + w2);
      RStripSpaceSuffix(core, w2);
    }
  }

  /** `str.lower()` on the ASCII letters; no other character has a lower-case
      form that is an ASCII letter or digit, so the comparisons the scripts
      make against ASCII words are decided exactly. */
  function LowerChar(c: char): char {
    if 'A' <= c <= 'Z' then (c as int + 32) as char else c
  }

  function Lower(s: string): (r: string)
    ensures |r| == |s|
    ensures forall k :: 0 <= k < |s| ==> r[k] == LowerChar(s[k])
  {
    if s == [] then [] else [LowerChar(s[0])] + Lower(s[1..])
  }

  lemma LowerConcat(a: string, b: string)
    ensures Lower(a + b) == Lower(a) + Lower(b)
  {
    var l, r := Lower(a + b), Lower(a) + Lower(b);
    forall k | 0 <= k < |l|
      ensures l[k] == r[k]
    {
      if k < |a| {
        assert (a + b)[k] == a[k];
      } else {
        assert (a + b)[k] == b[k - |a|];
      }
    }
  }

  predicate IsUpper(c: char) { 'A' <= c <= 'Z' }
  predicate IsLetter(c: char) { 'A' <= c <= 'Z' || 'a' <= c <= 'z' }
  function UpperChar(c: char): char {
    if 'a' <= c <= 'z' then (c as int - 32) as char else c
  }

  /** `str.title()` on ASCII text: a letter that follows a letter is lowered,
      any other letter is raised. */
  function Title(s: string): (r: string)
    ensures |r| == |s|
  {
    seq(|s|, k requires 0 <= k < |s| => if k > 0 && IsLetter(s[k - 1]) then LowerChar(s[k]) else UpperChar(s[k]))
  }

  // ---------------------------------------------------------------------
  // Prefixes, suffixes, substrings

  predicate StartsWith(s: string, p: string) {
    |p| <= |s| && s[..|p|] == p
  }

  predicate EndsWith(s: string, p: string) {
    |p| <= |s| && s[|s| - |p|..] == p
  }

  /** `s.removeprefix(p)`. */
  function RemovePrefix(s: string, p: string): string {
    if StartsWith(s, p) then s[|p|..] else s
  }

  /** `removeprefix` takes off `p` exactly when `s` starts with it. */
  lemma RemovePrefixSpec(s: string, p: string)
    ensures StartsWith(s, p) ==> p + RemovePrefix(s, p) == s
    ensures !StartsWith(s, p) ==> RemovePrefix(s, p) == s
  {
    if StartsWith(s, p) {
      assert s == s[..|p|] + s[|p|..];
    }
  }

  /** `s.removesuffix(p)`; Python leaves `s` alone when `p` is empty. */
  function RemoveSuffix(s: string, p: string): string {
    if p != [] && EndsWith(s, p) then s[..|s| - |p|] else s
  }

  /** `removesuffix` takes off a non-empty `p` exactly when `s` ends with
      it. */
  lemma RemoveSuffixSpec(s: string, p: string)
    ensures p != [] && EndsWith(s, p) ==> RemoveSuffix(s, p) + p == s
    ensures !(p != [] && EndsWith(s, p)) ==> RemoveSuffix(s, p) == s
  {
    if p != [] && EndsWith(s, p) {
      assert s == s[..|s| - |p|] + s[|s| - |p|..];
    }
  }

  lemma RemovePrefixOfConcat(p: string, x: string)
    ensures RemovePrefix(p + x, p) == x
  {
    assert (p + x)[..|p|] == p;
    assert (p + x)[|p|..] == x;
  }

  lemma RemoveSuffixOfConcat(x: string, p: string)
    requires p != []
    ensures RemoveSuffix(x + p, p) == x
  {
    assert (x + p)[|x|..] == p;
    assert (x + p)[..|x|] == x;
  }

  /** `t in s` for strings. */
  predicate Contains(s: string, t: string)
    decreases |s|
  {
    StartsWith(s, t) || (s != [] && Contains(s[1..], t))
  }

  lemma {:induction false} ContainsAt(a: string, t: string, b: string)
    ensures Contains(a + t + b, t)
  {
    if a == [] {
      assert a + t + b == t + b;
      assert (t + b)[..|t|] == t;
    } else {
      assert (a + t + b)[1..] == a[1..] + t + b;
      ContainsAt(a[1..], t, b);
    }
  }

  lemma {:induction false} ContainsWitness(s: string, t: string) returns (k: nat)
    requires Contains(s, t)
    ensures k + |t| <= |s| && s[k..k + |t|] == t
    decreases |s|
  {
    if StartsWith(s, t) {
      k := 0;
    } else {
      var j := ContainsWitness(s[1..], t);
      assert s[1..][j..j + |t|] == s[j + 1..j + 1 + |t|];
      k := j + 1;
    }
  }

  lemma {:induction false} ContainsFromWitness(s: string, t: string, k: nat)
    requires k + |t| <= |s| && s[k..k + |t|] == t
    ensures Contains(s, t)
    decreases k
  {
    if k > 0 {
      assert s[1..][k - 1..k - 1 + |t|] == s[k..k + |t|];
      ContainsFromWitness(s[1..], t, k - 1);
    }
  }

  /** A substring of a part is a substring of the whole. */
  lemma {:induction false} ContainsLeft(x: string, s: string, t: string)
    requires Contains(s, t)
    ensures Contains(x + s, t)
  {
    var k := ContainsWitness(s, t);
    assert (x + s)[|x| + k..|x| + k + |t|] == s[k..k + |t|];
    ContainsFromWitness(x + s, t, |x| + k);
  }

  lemma {:induction false} ContainsRight(s: string, y: string, t: string)
    requires Contains(s, t)
    ensures Contains(s + y, t)
  {
    var k := ContainsWitness(s, t);
    assert (s + y)[k..k + |t|] == s[k..k + |t|];
    ContainsFromWitness(s + y, t, k);
  }

  /** Whatever contains `a + b` contains `b`. */
  lemma ContainsTail(s: string, a: string, b: string)
    requires Contains(s, a + b)
    ensures Contains(s, b)
  {
    var k := ContainsWitness(s, a + b);
    assert s[k + |a|..k + |a| + |b|] == (a + b)[|a|..];
    assert (a + b)[|a|..] == b;
    ContainsFromWitness(s, b, k + |a|);
  }

  lemma StartsWithExtend(s: string, y: string, t: string)
    requires StartsWith(s, t)
    ensures StartsWith(s + y, t)
  {
    assert (s + y)[..|t|] == s[..|t|];
  }

  lemma EndsWithExtend(x: string, s: string, t: string)
    requires EndsWith(s, t)
    ensures EndsWith(x + s, t)
  {
    assert (x + s)[|x + s| - |t|..] == s[|s| - |t|..];
  }

  lemma StartsWithTrans(s: string, p: string, q: string)
    requires StartsWith(s, p) && StartsWith(p, q)
    ensures StartsWith(s, q)
  {
    assert s[..|q|] == s[..|p|][..|q|];
  }

  lemma EndsWithTrans(s: string, p: string, q: string)
    requires EndsWith(s, p) && EndsWith(p, q)
    ensures EndsWith(s, q)
  {
    assert s[|s| - |q|..] == s[|s| - |p|..][|p| - |q|..];
  }

  /** Text that opens and closes on non-whitespace is already stripped. */
  lemma TrimmedBetween(s: string, head: string, last: string)
    requires StartsWith(s, head) && head != [] && !IsSpace(head[0])
    requires EndsWith(s, last) && last != [] && !IsSpace(last[|last| - 1])
    ensures Trimmed(s)
  {
    assert s[0] == s[..|head|][0];
    assert s[|s| - 1] == s[|s| - |last|..][|last| - 1];
  }

  /** A join whose first part opens, and whose last part closes, on
      non-whitespace is already stripped. */
  lemma JoinTrimmed(sep: string, parts: seq<string>)
    requires parts != [] && parts[0] != [] && parts[|parts| - 1] != []
    requires !IsSpace(parts[0][0]) && !IsSpace(parts[|parts| - 1][|parts[|parts| - 1]| - 1])
    ensures Trimmed(JoinWith(sep, parts))
  {
    JoinStartsWith(sep, parts);
    JoinEndsWith(sep, parts);
    TrimmedBetween(JoinWith(sep, parts), parts[0], parts[|parts| - 1]);
  }

  /** `s.replace(p, q)`: every non-overlapping occurrence of a non-empty `p`,
      scanning from the left. */
  function ReplaceAll(s: string, p: string, q: string): (r: string)
    requires p != []
    decreases |s|
  {
    if s == [] then []
    else if StartsWith(s, p) then q + ReplaceAll(s[|p|..], p, q)
    else [s[0]] + ReplaceAll(s[1..], p, q)
  }

  lemma {:induction false} ReplaceAllAbsent(s: string, p: string, q: string)
    requires p != [] && !Contains(s, p)
    ensures ReplaceAll(s, p, q) == s
    decreases |s|
  {
    if s != [] {
      ReplaceAllAbsent(s[1..], p, q);
    }
  }

  // ---------------------------------------------------------------------
  // File listings

  /** `[f for f in names if f.endswith(suffix)]`, in the given order. */
  function WithSuffix(names: seq<string>, suffix: string): (r: seq<string>)
    ensures |r| <= |names|
    ensures forall f :: f in r <==> f in names && EndsWith(f, suffix)
  {
    if names == [] then []
    else
      var init := WithSuffix(names[..|names| - 1], suffix);
      var f := names[|names| - 1];
      assert forall g :: g in names <==> g in names[..|names| - 1] || g == f;
      if EndsWith(f, suffix) then init + [f] else init
  }

  /** Python's `<=` on strings: lexicographic by code point. */
  predicate StrLe(a: string, b: string)
    decreases |a|
  {
    a == [] || (b != [] && (a[0] < b[0] || (a[0] == b[0] && StrLe(a[1..], b[1..]))))
  }

  lemma {:induction false} StrLeTotal(a: string, b: string)
    ensures StrLe(a, b) || StrLe(b, a)
    decreases |a|
  {
    if a != [] && b != [] && a[0] == b[0] {
      StrLeTotal(a[1..], b[1..]);
    }
  }

  lemma {:induction false} StrLeTrans(a: string, b: string, c: string)
    requires StrLe(a, b) && StrLe(b, c)
    ensures StrLe(a, c)
    decreases |a|
  {
    if a != [] && a[0] == b[0] && b[0] == c[0] {
      StrLeTrans(a[1..], b[1..], c[1..]);
    }
  }

  lemma {:induction false} StrLeAntisymmetric(a: string, b: string)
    requires StrLe(a, b) && StrLe(b, a)
    ensures a == b
    decreases |a|
  {
    if a != [] {
      StrLeAntisymmetric(a[1..], b[1..]);
      assert a == [a[0]] + a[1..] && b == [b[0]] + b[1..];
    }
  }

  predicate SortedStrs(s: seq<string>) {
    forall i, j :: 0 <= i < j < |s| ==> StrLe(s[i], s[j])
  }

  /** `x` placed before the first element it does not follow. */
  function Insert(x: string, s: seq<string>): (r: seq<string>)
    ensures multiset(r) == multiset(s) + multiset{x}
  {
    if s == [] then [x]
    else if StrLe(x, s[0]) then [x] + s
    else
      assert s == [s[0]] + s[1..];
      [s[0]] + Insert(x, s[1..])
  }

  lemma {:induction false} InsertSorted(x: string, s: seq<string>)
    requires SortedStrs(s)
    ensures SortedStrs(Insert(x, s))
  {
    if s != [] {
      SortedHead(s);
      if StrLe(x, s[0]) {
        forall y | y in s
          ensures StrLe(x, y)
        {
          if y != s[0] {
            assert y in s[1..] by { assert s == [s[0]] + s[1..]; }
            StrLeTrans(x, s[0], y);
          }
        }
        SortedCons(x, s);
      } else {
        StrLeTotal(x, s[0]);
        var t := s[1..];
        InsertSorted(x, t);
        var rt := Insert(x, t);
        forall y | y in rt
          ensures StrLe(s[0], y)
        {
          assert y in multiset(rt);
          if y != x {
            assert y in multiset(t);
          }
        }
        SortedCons(s[0], rt);
      }
    }
  }

  /** The head of a sorted list is below everything after it. */
  lemma SortedHead(s: seq<string>)
    requires SortedStrs(s) && s != []
    ensures SortedStrs(s[1..])
    ensures forall y :: y in s[1..] ==> StrLe(s[0], y)
  {
    SortedTail(s);
    forall y | y in s[1..]
      ensures StrLe(s[0], y)
    {
      var m :| 0 <= m < |s| - 1 && s[1..][m] == y;
      assert s[m + 1] == y;
    }
  }

  lemma SortedCons(h: string, s: seq<string>)
    requires SortedStrs(s)
    requires forall y :: y in s ==> StrLe(h, y)
    ensures SortedStrs([h] + s)
  {
    var r := [h] + s;
    forall i, j | 0 <= i < j < |r|
      ensures StrLe(r[i], r[j])
    {
      assert r[j] == s[j - 1] && r[j] in s;
      if i > 0 { assert r[i] == s[i - 1]; }
    }
  }

  /** `sorted(names)`: insertion sort, which for strings gives the one
      sorted arrangement Python's stable sort produces. */
  function SortStrs(names: seq<string>): (r: seq<string>)
    ensures multiset(r) == multiset(names)
  {
    if names == [] then []
    else
      assert names == [names[0]] + names[1..];
      Insert(names[0], SortStrs(names[1..]))
  }

  lemma {:induction false} SortStrsSorted(names: seq<string>)
    ensures SortedStrs(SortStrs(names))
  {
    if names != [] {
      SortStrsSorted(names[1..]);
      InsertSorted(names[0], SortStrs(names[1..]));
    }
  }

  /** Sorting decides the order completely: any sorted arrangement of the
      same names is the sorted list. */
  lemma {:induction false} SortedUnique(a: seq<string>, b: seq<string>)
    requires SortedStrs(a) && SortedStrs(b) && multiset(a) == multiset(b)
    ensures a == b
    decreases |a|
  {
    assert |a| == |multiset(a)| == |multiset(b)| == |b|;
    if a != [] {
      HeadsEqual(a, b);
      TailsSameElements(a, b);
      SortedTail(a);
      SortedTail(b);
      SortedUnique(a[1..], b[1..]);
      assert a == [a[0]] + a[1..] && b == [b[0]] + b[1..];
    }
  }

  lemma TailsSameElements(a: seq<string>, b: seq<string>)
    requires a != [] && b != [] && a[0] == b[0] && multiset(a) == multiset(b)
    ensures multiset(a[1..]) == multiset(b[1..])
  {
    assert a == [a[0]] + a[1..] && b == [b[0]] + b[1..];
    assert multiset(a) == multiset{a[0]} + multiset(a[1..]);
    assert multiset(b) == multiset{b[0]} + multiset(b[1..]);
    assert multiset(a[1..]) == multiset(a) - multiset{a[0]};
    assert multiset(b[1..]) == multiset(b) - multiset{b[0]};
  }

  lemma SortedTail(a: seq<string>)
    requires SortedStrs(a) && a != []
    ensures SortedStrs(a[1..])
  {
    forall i, j | 0 <= i < j < |a| - 1
      ensures StrLe(a[1..][i], a[1..][j])
    {
      assert a[1..][i] == a[i + 1] && a[1..][j] == a[j + 1];
    }
  }

  lemma HeadsEqual(a: seq<string>, b: seq<string>)
    requires SortedStrs(a) && SortedStrs(b) && multiset(a) == multiset(b)
    requires a != [] && b != []
    ensures a[0] == b[0]
  {
    assert a[0] in multiset(b) && b[0] in multiset(a);
    var i :| 0 <= i < |b| && b[i] == a[0];
    var j :| 0 <= j < |a| && a[j] == b[0];
    if i > 0 && j > 0 {
      assert StrLe(b[0], b[i]) && StrLe(a[0], a[j]);
      StrLeAntisymmetric(a[0], b[0]);
    }
  }

  // ---------------------------------------------------------------------
  // Joining

  /** `sep.join(parts)`. */
  function JoinWith(sep: string, parts: seq<string>): (r: string)
    ensures |parts| == 1 ==> r == parts[0]
  {
    if |parts| == 0 then []
    else if |parts| == 1 then parts[0]
    else parts[0] + sep + JoinWith(sep, parts[1..])
  }

  lemma JoinStartsWith(sep: string, parts: seq<string>)
    requires parts != []
    ensures StartsWith(JoinWith(sep, parts), parts[0])
  {
    if |parts| > 1 {
      StartsWithExtend(parts[0], sep, parts[0]);
      StartsWithExtend(parts[0] + sep, JoinWith(sep, parts[1..]), parts[0]);
    }
  }

  lemma {:induction false} JoinEndsWith(sep: string, parts: seq<string>)
    requires parts != []
    ensures EndsWith(JoinWith(sep, parts), parts[|parts| - 1])
  {
    if |parts| > 1 {
      JoinEndsWith(sep, parts[1..]);
      EndsWithExtend(parts[0] + sep, JoinWith(sep, parts[1..]), parts[|parts| - 1]);
    }
  }

  /** Every part of a join appears in it. */
  lemma {:induction false} JoinContains(sep: string, parts: seq<string>, k: nat)
    requires k < |parts|
    ensures Contains(JoinWith(sep, parts), parts[k])
  {
    if k == 0 {
      JoinStartsWith(sep, parts);
    } else {
      JoinContains(sep, parts[1..], k - 1);
      ContainsLeft(parts[0] + sep, JoinWith(sep, parts[1..]), parts[k]);
    }
  }

  /** The position of the first item that is not a string. */
  function FirstNonStr(items: seq<Json>): (k: nat)
    requires exists k :: 0 <= k < |items| && !items[k].JStr?
    ensures k < |items| && !items[k].JStr?
    ensures forall j :: 0 <= j < k ==> items[j].JStr?
  {
    if !items[0].JStr? then 0
    else
      assert forall j :: 1 <= j < |items| ==> items[1..][j - 1] == items[j];
      1 + FirstNonStr(items[1..])
  }

  /** `sep.join(items)` over arbitrary values: TypeError at the first item
      that is not a string. */
  function JoinStrs(sep: string, items: seq<Json>): (r: Result<string>)
    ensures r.Ok? <==> forall k :: 0 <= k < |items| ==> items[k].JStr?
    ensures r.Ok? ==> r.value == JoinWith(sep, seq(|items|, k requires 0 <= k < |items| => items[k].s))
  {
    if forall k :: 0 <= k < |items| ==> items[k].JStr? then
      Ok(JoinWith(sep, seq(|items|, k requires 0 <= k < |items| => items[k].s)))
    else
      var k := FirstNonStr(items);
      Err("TypeError: sequence item " + NatToString(k) + ": expected str instance, " + TypeName(items[k]) + " found")
  }

  // ---------------------------------------------------------------------
  // Numbers and text

  function DigitChar(d: nat): char
    requires d < 10
  {
    ('0' as int + d) as char
  }

  predicate IsDigit(c: char) { '0' <= c <= '9' }

  function DigitValue(c: char): nat
    requires IsDigit(c)
  {
    c as int - '0' as int
  }

  /** Decimal text of a natural number, as `str(n)` or an f-string gives it. */
  function NatToString(n: nat): (r: string)
    ensures |r| >= 1
    ensures forall k :: 0 <= k < |r| ==> IsDigit(r[k])
    ensures n >= 10 ==> r[0] != '0'
  {
    if n < 10 then [DigitChar(n)] else NatToString(n / 10) + [DigitChar(n % 10)]
  }

  function IntToString(i: int): (r: string) {
    if i < 0 then "-" + NatToString(-i) else NatToString(i)
  }

  /** The value of a string of decimal digits. */
  function DigitsValue(s: string): nat
    requires forall k :: 0 <= k < |s| ==> IsDigit(s[k])
  {
    if s == [] then 0 else DigitsValue(s[..|s| - 1]) * 10 + DigitValue(s[|s| - 1])
  }

  lemma {:induction false} DigitsOfNat(n: nat)
    ensures DigitsValue(NatToString(n)) == n
  {
    if n >= 10 {
      var s := NatToString(n);
      assert s[..|s| - 1] == NatToString(n / 10);
      DigitsOfNat(n / 10);
    }
  }

  /** Different numbers print differently. */
  lemma NatToStringInjective(m: nat, n: nat)
    requires m != n
    ensures NatToString(m) != NatToString(n)
  {
    DigitsOfNat(m);
    DigitsOfNat(n);
  }

  /** `f"{n:02d}"` for a natural number. */
  function Pad2(n: nat): (r: string)
    ensures n < 100 ==> |r| == 2
    ensures n >= 10 ==> r == NatToString(n)
  {
    if n < 10 then "0" + NatToString(n)
    else
      assert n < 100 ==> |NatToString(n / 10)| == 1;
      NatToString(n)
  }

  lemma Pad2Injective(m: nat, n: nat)
    requires m != n
    ensures Pad2(m) != Pad2(n)
  {
    if m < 10 && n < 10 {
      assert Pad2(m)[1] == DigitChar(m);
      assert Pad2(n)[1] == DigitChar(n);
    } else if m < 10 {
      assert Pad2(m)[0] == '0';
      assert Pad2(n)[0] != '0';
    } else if n < 10 {
      assert Pad2(n)[0] == '0';
      assert Pad2(m)[0] != '0';
    } else {
      NatToStringInjective(m, n);
    }
  }

  /** Python's `int(text)` in base 10 after stripping: an optional sign, then
      ASCII digits with single underscores allowed between them. `None` is
      ValueError. */
  function ParseInt(text: string): (r: Option<int>)
    ensures r.Some? ==> Strip(text) != []
  {
    var t := Strip(text);
    if t == [] then None
    else if t[0] == '-' then
      (match ParseUnsigned(t[1..]) case Some(v) => Some(-(v as int)) case None => None)
    else if t[0] == '+' then
      (match ParseUnsigned(t[1..]) case Some(v) => Some(v as int) case None => None)
    else
      (match ParseUnsigned(t) case Some(v) => Some(v as int) case None => None)
  }

  function ParseUnsigned(body: string): (r: Option<nat>)
    ensures r.Some? <==> UnderscoreDigits(body)
  {
    if UnderscoreDigits(body) then
      Some(DigitsValue(RemoveUnderscores(body)))
    else None
  }

  /** A run of digits in which every underscore sits between two digits:
      digits at both ends and never two underscores side by side. */
  predicate UnderscoreDigits(s: string) {
    && s != []
    && IsDigit(s[0]) && IsDigit(s[|s| - 1])
    && (forall k :: 0 <= k < |s| ==> IsDigit(s[k]) || s[k] == '_')
    && (forall j, k :: 0 <= j < |s| && 0 <= k < |s| && k == j + 1 ==> IsDigit(s[j]) || IsDigit(s[k]))
  }

  function RemoveUnderscores(s: string): (r: string)
    requires forall k :: 0 <= k < |s| ==> IsDigit(s[k]) || s[k] == '_'
    ensures forall k :: 0 <= k < |r| ==> IsDigit(r[k])
  {
    if s == [] then [] else (if s[0] == '_' then [] else [s[0]]) + RemoveUnderscores(s[1..])
  }

  lemma {:induction false} ParseDigitsOnly(s: string)
    requires forall k :: 0 <= k < |s| ==> IsDigit(s[k])
    ensures RemoveUnderscores(s) == s
  {
    if s != [] {
      ParseDigitsOnly(s[1..]);
    }
  }

  lemma DigitsTrimmed(t: string)
    requires t != [] && forall k :: 0 <= k < |t| ==> IsDigit(t[k])
    ensures Strip(t) == t
  {
    assert IsDigit(t[0]) && IsDigit(t[|t| - 1]);
    StripOfTrimmed(t);
  }

  lemma DigitsUnsigned(t: string)
    requires t != [] && forall k :: 0 <= k < |t| ==> IsDigit(t[k])
    ensures ParseUnsigned(t) == Some(DigitsValue(t))
  {
    assert forall k :: 0 <= k < |t| ==> t[k] != '_';
    assert UnderscoreDigits(t);
    ParseDigitsOnly(t);
  }

  /** A run of plain digits parses to its value. */
  lemma ParseIntOfDigits(t: string)
    requires t != [] && forall k :: 0 <= k < |t| ==> IsDigit(t[k])
    ensures ParseInt(t) == Some(DigitsValue(t) as int)
  {
    DigitsTrimmed(t);
    DigitsUnsigned(t);
    assert IsDigit(t[0]);
    assert t[0] != '-' && t[0] != '+';
  }

  /** `int()` reads back what `str()` of a natural number prints. */
  lemma ParseIntOfNat(n: nat)
    ensures ParseInt(NatToString(n)) == Some(n)
  {
    ParseIntOfDigits(NatToString(n));
    DigitsOfNat(n);
  }

  /** `int(v)` for a decoded JSON value: booleans are 0 or 1, strings are
      parsed, and `None`, lists and dicts raise TypeError (`None` here). */
  function IntOf(v: Json): (r: Option<int>)
    ensures v.JInt? ==> r == Some(v.i)
    ensures v.JNull? || v.JArr? || v.JObj? ==> r.None?
  {
    match v
    case JInt(i) => Some(i)
    case JBool(b) => Some(if b then 1 else 0)
    case JStr(s) => ParseInt(s)
    case _ => None
  }

  /** `repr()` of a string, without Python's escaping of quotes and control
      characters. */
  function QuoteStr(s: string): string {
    "'" + s + "'"
  }

  /** `repr()` of a decoded value. */
  function Repr(v: Json): (r: string)
    ensures r != []
    ensures v.JArr? ==> r[0] == '['
    ensures v.JObj? ==> r[0] == '{'
  {
    match v
    case JNull => "None"
    case JBool(b) => if b then "True" else "False"
    case JInt(i) => IntToString(i)
    case JStr(s) => QuoteStr(s)
    case JArr(items) =>
      "[" + JoinWith(", ", seq(|items|, k requires 0 <= k < |items| => Repr(items[k]))) + "]"
    case JObj(fields) =>
      "{" + JoinWith(", ", seq(|fields|, k requires 0 <= k < |fields| => QuoteStr(fields[k].0) + ": " + Repr(fields[k].1))) + "}"
  }

  /** `str()` of a decoded value: a string is itself, anything else its repr. */
  function Str(v: Json): (r: string)
    ensures v.JStr? ==> r == v.s
    ensures v.JArr? || v.JObj? ==> r != [] && (r[0] == '[' || r[0] == '{')
  {
    if v.JStr? then v.s else Repr(v)
  }
}
