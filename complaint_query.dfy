/**
 * The list-query shaping of `getAllComplaints`
 * (backend/src/controllers/complaintController.js:7-38): from the parsed
 * query-string parameters to a filter, a sort string, a projection string and
 * the pagination numbers handed to the store.
 */
module ComplaintQuery {
  import opened Wrappers
  import Text

  /**
   * A parsed query-string value: `a=x` gives a string, a repeated `a=x&a=y` an
   * array, and `a[op]=x` a one-level object.
   */
  datatype Param = Str(s: string) | Arr(items: seq<string>) | Obj(fields: map<string, string>)

  /** The parameters that shape the result instead of filtering it. */
  const Reserved: set<string> := {"page", "sort", "limit", "fields"}

  // ---------------------------------------------------------------------------
  // The operator rewrite `/\b(gte|gt|lte|lt)\b/g -> $&` on the serialised filter.
  //
  // The serialised JSON puts every key and string value between quotes, so the
  // rewrite acts on each string separately. Inside a string, a whole word is
  // rewritten when it is one of the four operator names, except right after a
  // control character: JSON writes that character as an escape ending in a
  // letter or digit (`\n`, `\u001f`), so no word boundary precedes the word.

  /** A character `\w` matches. */
  predicate IsWordChar(c: char) {
    ('a' <= c <= 'z') || ('A' <= c <= 'Z') || ('0' <= c <= '9') || c == '_'
  }

  /** A character `JSON.stringify` writes as an escape sequence ending in a word character. */
  predicate IsControl(c: char) {
    c < ' '
  }

  predicate IsOperator(w: string) {
    w == "gt" || w == "gte" || w == "lt" || w == "lte"
  }

  /** The length of the run of word characters that starts `s`. */
  function WordLen(s: string): (n: nat)
    ensures n <= |s|
    ensures forall k :: 0 <= k < n ==> IsWordChar(s[k])
    ensures n == |s| || !IsWordChar(s[n])
  {
    if s == [] || !IsWordChar(s[0]) then 0 else 1 + WordLen(s[1..])
  }

  /** The rewrite of `s`; `afterControl` says the character before `s` was a control character. */
  function RewriteFrom(s: string, afterControl: bool): string
    decreases |s|
  {
    if s == [] then []
    else if IsWordChar(s[0]) then
      var n := WordLen(s);
      (if !afterControl && IsOperator(s[..n]) then "$" + s[..n] else s[..n]) + RewriteFrom(s[n..], false)
    else [s[0]] + RewriteFrom(s[1..], IsControl(s[0]))
  }

  /** The rewrite of one key or string value of the filter; it loses nothing. */
  function RewriteOperators(s: string): (r: string)
    ensures RestoreOperators(r) == s
  {
    RestoreRewrite(s, false);
    RewriteFrom(s, false)
  }

  /** Undoes `RewriteFrom`: drops the `$` in front of every operator word at a word start. */
  function RestoreFrom(s: string, afterControl: bool): string
    decreases |s|
  {
    if s == [] then []
    else if s[0] == '$' && !afterControl && |s| > 1 && IsWordChar(s[1]) && IsOperator(s[1..][..WordLen(s[1..])]) then
      var n := WordLen(s[1..]);
      s[1..][..n] + RestoreFrom(s[1..][n..], false)
    else if IsWordChar(s[0]) then
      var n := WordLen(s);
      s[..n] + RestoreFrom(s[n..], false)
    else [s[0]] + RestoreFrom(s[1..], IsControl(s[0]))
  }

  function RestoreOperators(s: string): string {
    RestoreFrom(s, false)
  }

  /** A run of word characters followed by a non-word character (or nothing) is read as one word. */
  lemma {:induction false} WordLenOfWord(w: string, u: string)
    requires forall k :: 0 <= k < |w| ==> IsWordChar(w[k])
    requires u == [] || !IsWordChar(u[0])
    ensures WordLen(w + u) == |w|
  {
    if w != [] {
      assert (w + u)[1..] == w[1..] + u;
      WordLenOfWord(w[1..], u);
    }
  }

  /** The rewrite keeps a leading non-word character in place. */
  lemma RewriteKeepsHead(t: string, afterControl: bool)
    requires t != [] && !IsWordChar(t[0])
    ensures RewriteFrom(t, afterControl) != [] && RewriteFrom(t, afterControl)[0] == t[0]
  {
  }

  /** After a `$` the rewrite never leaves a bare operator word: the `$` it adds comes first. */
  lemma NoBareOperatorAfterDollar(t: string)
    requires t != []
    ensures var r := RewriteFrom(t, false);
      r != [] && (IsWordChar(r[0]) ==> !IsOperator(r[..WordLen(r)]))
  {
    var r := RewriteFrom(t, false);
    if IsWordChar(t[0]) {
      var n := WordLen(t);
      if !IsOperator(t[..n]) {
        assert t[n..] == [] || !IsWordChar(t[n..][0]);
        if t[n..] != [] { RewriteKeepsHead(t[n..], false); }
        WordLenOfWord(t[..n], RewriteFrom(t[n..], false));
        assert r == t[..n] + RewriteFrom(t[n..], false);
        assert r[..WordLen(r)] == t[..n];
      }
    }
  }

  /** Restoring `$w` followed by a non-word tail, for an operator word `w`, gives back `w`. */
  lemma RestoreOfDollarWord(w: string, tail: string)
    requires w != [] && WordLen(w + tail) == |w| && IsOperator(w)
    ensures RestoreFrom("$" + w + tail, false) == w + RestoreFrom(tail, false)
  {
    var r := "$" + w + tail;
    assert r[0] == '$';
    assert r[1..] == w + tail;
    assert r[1] == w[0];
    assert r[1..][..|w|] == w && r[1..][|w|..] == tail;
  }

  /** Restoring a word followed by a non-word tail keeps the word. */
  lemma RestoreOfWord(w: string, tail: string, afterControl: bool)
    requires w != [] && WordLen(w + tail) == |w|
    ensures RestoreFrom(w + tail, afterControl) == w + RestoreFrom(tail, false)
  {
    var r := w + tail;
    assert r[0] == w[0];
    assert r[..|w|] == w && r[|w|..] == tail;
  }

  /** One step of `RestoreRewrite` for a string that starts with a word. */
  lemma RestoreRewriteWord(s: string, afterControl: bool)
    requires s != [] && IsWordChar(s[0])
    requires RestoreFrom(RewriteFrom(s[WordLen(s)..], false), false) == s[WordLen(s)..]
    ensures RestoreFrom(RewriteFrom(s, afterControl), afterControl) == s
  {
    var n := WordLen(s);
    var w, rest := s[..n], s[n..];
    assert s == w + rest;
    var tail := RewriteFrom(rest, false);
    if rest != [] { RewriteKeepsHead(rest, false); }
    WordLenOfWord(w, tail);
    if !afterControl && IsOperator(w) {
      assert RewriteFrom(s, afterControl) == "$" + w + tail;
      RestoreOfDollarWord(w, tail);
    } else {
      assert RewriteFrom(s, afterControl) == w + tail;
      RestoreOfWord(w, tail, afterControl);
    }
  }

  /** One step of `RestoreRewrite` for a string that starts with a non-word character. */
  lemma RestoreRewriteOther(s: string, afterControl: bool)
    requires s != [] && !IsWordChar(s[0])
    requires RestoreFrom(RewriteFrom(s[1..], IsControl(s[0])), IsControl(s[0])) == s[1..]
    ensures RestoreFrom(RewriteFrom(s, afterControl), afterControl) == s
  {
    var t := s[1..];
    var r := [s[0]] + RewriteFrom(t, IsControl(s[0]));
    assert RewriteFrom(s, afterControl) == r;
    if s[0] == '$' && !afterControl && t != [] {
      NoBareOperatorAfterDollar(t);
      assert r[1..] == RewriteFrom(t, false);
    }
    assert r[1..] == RewriteFrom(t, IsControl(s[0]));
  }

  /** The rewrite loses nothing: restoring it gives the original string back. */
  lemma {:induction false} RestoreRewrite(s: string, afterControl: bool)
    ensures RestoreFrom(RewriteFrom(s, afterControl), afterControl) == s
    decreases |s|
  {
    if s == [] {
    } else if IsWordChar(s[0]) {
      RestoreRewrite(s[WordLen(s)..], false);
      RestoreRewriteWord(s, afterControl);
    } else {
      RestoreRewrite(s[1..], IsControl(s[0]));
      RestoreRewriteOther(s, afterControl);
    }
  }

  /** Two different strings never rewrite to the same string, so no two filter keys collide. */
  lemma RewriteInjective(a: string, b: string)
    requires RewriteOperators(a) == RewriteOperators(b)
    ensures a == b
  {
    RestoreRewrite(a, false);
    RestoreRewrite(b, false);
  }

  /** An operator word standing alone gains a `$`. */
  lemma OperatorWordRewrites(w: string)
    requires IsOperator(w) && WordLen(w) == |w|
    ensures RewriteOperators(w) == "$" + w
  {
    assert w[..|w|] == w && w[|w|..] == [];
    assert RewriteFrom(w, false) == "$" + w[..|w|] + RewriteFrom(w[|w|..], false);
  }

  /** The operator words rewrite to the store's operators. */
  lemma OperatorWordsRewrite()
    ensures RewriteOperators("gt") == "$gt" && RewriteOperators("gte") == "$gte"
    ensures RewriteOperators("lt") == "$lt" && RewriteOperators("lte") == "$lte"
  {
    assert WordLen("gt") == 2 by { assert "gt"[1..] == "t"; assert "t"[1..] == []; }
    OperatorWordRewrites("gt");
    assert WordLen("lt") == 2 by { assert "lt"[1..] == "t"; assert "t"[1..] == []; }
    OperatorWordRewrites("lt");
    assert WordLen("gte") == 3 by { assert "gte"[1..] == "te"; assert "te"[1..] == "e"; assert "e"[1..] == []; }
    OperatorWordRewrites("gte");
    assert WordLen("lte") == 3 by { assert "lte"[1..] == "te"; assert "te"[1..] == "e"; assert "e"[1..] == []; }
    OperatorWordRewrites("lte");
  }

  /** A parameter with every key and string inside it rewritten. */
  function RewriteParam(p: Param): Param {
    match p
    case Str(s) => Str(RewriteOperators(s))
    case Arr(items) => Arr(seq(|items|, i requires 0 <= i < |items| => RewriteOperators(items[i])))
    case Obj(fields) => Obj(RewriteObject(fields))
  }

  /** An object with its keys and values rewritten; rewriting never merges two keys. */
  function RewriteObject(m: map<string, string>): (r: map<string, string>)
    ensures forall k :: k in m ==> RewriteOperators(k) in r && r[RewriteOperators(k)] == RewriteOperators(m[k])
    ensures forall k :: k in r ==> RestoreOperators(k) in m && RewriteOperators(RestoreOperators(k)) == k
  {
    RewriteAllInjective();
    map k | k in m :: RewriteOperators(k) := RewriteOperators(m[k])
  }

  lemma RewriteAllInjective()
    ensures forall a, b :: RewriteOperators(a) == RewriteOperators(b) ==> a == b
    ensures forall k :: RestoreOperators(RewriteOperators(k)) == k
  {
    forall a, b | RewriteOperators(a) == RewriteOperators(b) ensures a == b {
      RewriteInjective(a, b);
    }
    forall k ensures RestoreOperators(RewriteOperators(k)) == k {
      RestoreRewrite(k, false);
    }
  }

  // ---------------------------------------------------------------------------
  // Sorting, field limiting and pagination.

  function Get(q: map<string, Param>, key: string): Option<Param> {
    if key in q then Some(q[key]) else None
  }

  /**
   * The sort or fields string: `value.split(',').join(' ')` when the parameter
   * is a non-empty string, the default when it is absent or empty, and `None`
   * when it is an array or an object, on which `split` throws.
   */
  function ListSpec(p: Option<Param>, default: string): (r: Option<string>)
    ensures r.Some? <==> (p.None? || p.value.Str?)
    ensures (p.None? || p == Some(Str(""))) ==> r == Some(default)
    ensures p.Some? && p.value.Str? && p.value.s != "" ==> r == Some(Text.ReplaceChar(p.value.s, ',', ' '))
  {
    if p.None? then Some(default)
    else match p.value
      case Str(s) =>
        Text.SplitJoinIsReplace(s, ',', ' ');
        if s == "" then Some(default) else Some(Text.Join(Text.Split(s, ','), " "))
      case _ => None
  }

  /**
   * `value * 1`: a string converts as `Number` does, an array through its
   * comma-joined text, and an absent parameter or an object is NaN (`None`).
   */
  function NumberOf(p: Option<Param>): (r: Option<int>)
    ensures p.Some? && p.value.Str? ==> r == Text.JsNumber(p.value.s)
    ensures p.None? || p.value.Obj? ==> r.None?
    ensures p.Some? && p.value.Arr? ==> r == Text.JsNumber(Text.Join(p.value.items, ","))
  {
    if p.None? then None
    else match p.value
      case Str(s) => Text.JsNumber(s)
      case Arr(items) => Text.JsNumber(Text.Join(items, ","))
      case Obj(_) => None
  }

  /** `value * 1 || default`: NaN and 0 give the default; every other number, negative ones too, is kept. */
  function PageParam(p: Option<Param>, default: int): (r: int)
    ensures NumberOf(p).None? || NumberOf(p) == Some(0) ==> r == default
    ensures NumberOf(p).Some? && NumberOf(p).value != 0 ==> r == NumberOf(p).value
    ensures default != 0 ==> r != 0
  {
    var n := NumberOf(p);
    if n.None? || n.value == 0 then default else n.value
  }

  /** Why a list query fails before reaching the store (the handler answers 404). */
  datatype ShapeError = SortNotString | FieldsNotString

  /** What the handler hands to the store. */
  datatype Query = Query(filter: map<string, Param>, sort: string, projection: string, skip: int, limit: int)

  /** The filter: the reserved parameters dropped, every other key and value rewritten. */
  function Filter(q: map<string, Param>): (f: map<string, Param>)
    ensures forall k :: k in f ==> k !in Reserved
    ensures forall k :: k in q && k !in Reserved ==> RewriteOperators(k) in f && f[RewriteOperators(k)] == RewriteParam(q[k])
    ensures forall k :: k in f ==>
      RestoreOperators(k) in q && RestoreOperators(k) !in Reserved && RewriteOperators(RestoreOperators(k)) == k
  {
    RewriteAllInjective();
    forall k | RewriteOperators(k) in Reserved ensures k in Reserved {
      ReservedHaveNoPreimage(k);
    }
    var kept := q - Reserved;
    map k | k in kept :: RewriteOperators(k) := RewriteParam(kept[k])
  }

  /** A single word that is not an operator name is left as it is. */
  lemma PlainWordIsFixed(w: string)
    requires w != [] && WordLen(w) == |w| && !IsOperator(w)
    ensures RewriteOperators(w) == w
  {
    assert w[..|w|] == w && w[|w|..] == [];
    assert RewriteFrom(w, false) == w[..|w|] + RewriteFrom(w[|w|..], false);
  }

  /** A rewrite that added no `$` left its input as it was. */
  lemma {:induction false} NoDollarMeansFixed(s: string, afterControl: bool)
    requires '$' !in RewriteFrom(s, afterControl)
    ensures RewriteFrom(s, afterControl) == s
    decreases |s|
  {
    if s != [] {
      if IsWordChar(s[0]) {
        var n := WordLen(s);
        if !afterControl && IsOperator(s[..n]) {
          assert false;
        } else {
          assert RewriteFrom(s, afterControl) == s[..n] + RewriteFrom(s[n..], false);
          NoDollarMeansFixed(s[n..], false);
          assert s == s[..n] + s[n..];
        }
      } else {
        assert RewriteFrom(s, afterControl) == [s[0]] + RewriteFrom(s[1..], IsControl(s[0]));
        NoDollarMeansFixed(s[1..], IsControl(s[0]));
        assert s == [s[0]] + s[1..];
      }
    }
  }

  /** No key outside the reserved names is rewritten into one of them. */
  lemma ReservedHaveNoPreimage(k: string)
    requires RewriteOperators(k) in Reserved
    ensures k in Reserved
  {
    NoDollarInReserved(RewriteFrom(k, false));
    NoDollarMeansFixed(k, false);
  }

  lemma NoDollarInReserved(r: string)
    requires r in Reserved
    ensures '$' !in r
  {
  }

  /** `(page - 1) * limit`: how many matches come before the page. */
  function Skip(page: int, limit: int): int {
    (page - 1) * limit
  }

  /** `getAllComplaints` up to the store call. */
  function CompileQuery(q: map<string, Param>): (r: Result<Query, ShapeError>)
    ensures ListSpec(Get(q, "sort"), "-createdAt").None? ==> r == Failure(SortNotString)
    ensures ListSpec(Get(q, "sort"), "-createdAt").Some? && ListSpec(Get(q, "fields"), "-__v").None? ==> r == Failure(FieldsNotString)
    ensures ListSpec(Get(q, "sort"), "-createdAt").Some? && ListSpec(Get(q, "fields"), "-__v").Some? ==> r.Success?
    ensures r.Success? ==> Some(r.value.sort) == ListSpec(Get(q, "sort"), "-createdAt")
    ensures r.Success? ==> Some(r.value.projection) == ListSpec(Get(q, "fields"), "-__v")
    ensures r.Success? ==> r.value.filter == Filter(q)
    ensures r.Success? ==> r.value.limit == PageParam(Get(q, "limit"), 10)
    ensures r.Success? ==> r.value.skip == Skip(PageParam(Get(q, "page"), 1), r.value.limit)
  {
    var sort := ListSpec(Get(q, "sort"), "-createdAt");
    var fields := ListSpec(Get(q, "fields"), "-__v");
    if sort.None? then Failure(SortNotString)
    else if fields.None? then Failure(FieldsNotString)
    else
      var limit := PageParam(Get(q, "limit"), 10);
      var page := PageParam(Get(q, "page"), 1);
      Success(Query(Filter(q), sort.value, fields.value, Skip(page, limit), limit))
  }

  /** With no shaping parameters: newest first, `__v` hidden, the first ten. */
  lemma DefaultShaping(q: map<string, Param>)
    requires forall k :: k in q ==> k !in Reserved
    ensures CompileQuery(q) == Success(Query(Filter(q), "-createdAt", "-__v", 0, 10))
  {
    assert "sort" !in q && "fields" !in q && "page" !in q && "limit" !in q;
  }

  /** Each operator word is rewritten to the store operator of the same name. */
  lemma OperatorRewrites(op: string)
    requires IsOperator(op)
    ensures RewriteOperators(op) == "$" + op
  {
    OperatorWordsRewrite();
  }

  /**
   * A range parameter `key[op]=value` (as in `votes[gte]=10`) becomes the
   * filter `{key: {$op: value}}` when the key and the value hold no operator word.
   */
  lemma RangeFilter(key: string, op: string, value: string)
    requires key !in Reserved && IsOperator(op)
    requires RewriteOperators(key) == key && RewriteOperators(value) == value
    ensures var f := Filter(map[key := Obj(map[op := value])]);
      && key in f && f[key].Obj?
      && f[key].fields.Keys == {"$" + op} && f[key].fields["$" + op] == value
  {
    OperatorRewrites(op);
    var m := map[op := value];
    var r := RewriteObject(m);
    assert op in m;
    forall k | k in r ensures k == "$" + op {
      assert RestoreOperators(k) == op;
    }
  }

  /** The rewrite reaches values too: a filter value that is exactly `gt` is sent as `$gt`. */
  lemma OperatorValuesAreRewritten(q: map<string, Param>, key: string)
    requires key in q && key !in Reserved && q[key] == Str("gt")
    ensures RewriteOperators(key) in Filter(q) && Filter(q)[RewriteOperators(key)] == Str("$gt")
  {
    OperatorWordsRewrite();
  }

  /** A negative page is not clamped: `page=-2` skips back past the start. */
  lemma NegativePageIsKept(q: map<string, Param>)
    requires CompileQuery(q).Success? && Get(q, "page") == Some(Str("-2")) && "limit" !in q
    ensures CompileQuery(q).value.skip == -30
  {
    assert Text.NatToString(2) == "2";
    Text.JsNumberOfNegatedNat(2);
    assert ['-'] + Text.NatToString(2) == "-2";
  }

  /** Page 1 (or no page, or page 0) skips nothing. */
  lemma FirstPageSkipsNothing(q: map<string, Param>)
    requires CompileQuery(q).Success?
    requires NumberOf(Get(q, "page")).None? || NumberOf(Get(q, "page")) == Some(0) || NumberOf(Get(q, "page")) == Some(1)
    ensures CompileQuery(q).value.skip == 0
  {
    assert PageParam(Get(q, "page"), 1) == 1;
  }

  /** The slice of the matching, sorted complaints that a page shows. */
  function Window<T>(m: seq<T>, skip: nat, limit: nat): (r: seq<T>)
    ensures |r| <= limit
    ensures |r| == if skip >= |m| then 0 else if skip + limit >= |m| then |m| - skip else limit
    ensures forall i :: 0 <= i < |r| ==> r[i] == m[skip + i]
  {
    if skip >= |m| then [] else if skip + limit >= |m| then m[skip..] else m[skip..skip + limit]
  }

  /** Pages 1 to `n` one after another. */
  function Pages<T>(m: seq<T>, limit: nat, n: nat): seq<T> {
    if n == 0 then [] else Pages(m, limit, n - 1) + Window(m, (n - 1) * limit, limit)
  }

  function Min(a: int, b: int): int { if a <= b then a else b }

  /** The window at `start` continues the prefix that ends at `start`. */
  lemma WindowExtendsPrefix<T>(m: seq<T>, start: nat, limit: nat)
    ensures m[..Min(start, |m|)] + Window(m, start, limit) == m[..Min(start + limit, |m|)]
  {
    if start < |m| {
      var w := Window(m, start, limit);
      assert m[..Min(start + limit, |m|)] == m[..start] + m[start..Min(start + limit, |m|)];
      assert w == m[start..Min(start + limit, |m|)];
    }
  }

  /** Reading pages 1 to `n` shows exactly the first `n * limit` results, each once, in order. */
  lemma {:induction false} PagesTile<T>(m: seq<T>, limit: nat, n: nat)
    ensures Pages(m, limit, n) == m[..Min(n * limit, |m|)]
  {
    if n > 0 {
      PagesTile(m, limit, n - 1);
      var start := (n - 1) * limit;
      assert start + limit == n * limit;
      WindowExtendsPrefix(m, start, limit);
    }
  }

  /** Why listing answers 404: a `sort` or `fields` list that is not a string, or a skip the store refuses. */
  datatype ListError = BadShape(shape: ShapeError) | NegativeSkip

  function Abs(n: int): nat { if n < 0 then -n else n }

  /**
   * Executing a shaped query against `matches`, the collection already
   * filtered and sorted by the store: the store refuses a negative skip and
   * reads a negative limit as its magnitude; the page is the run of at most
   * that many matches starting at the skip. A limit of 0, which the store
   * reads as no limit, would give an empty page here; `PageParam` never yields
   * 0, so no query that `ListPage` runs has it.
   */
  function PageOf<T>(query: Query, matches: seq<T>): (r: Result<seq<T>, ListError>)
    ensures query.skip < 0 <==> r == Failure(NegativeSkip)
    ensures query.skip >= 0 ==> r == Success(Window(matches, query.skip, Abs(query.limit)))
    ensures r.Success? ==> |r.value| <= Abs(query.limit)
    ensures r.Success? && r.value != [] ==> query.skip + |r.value| <= |matches|
    ensures r.Success? ==> forall i :: 0 <= i < |r.value| ==> r.value[i] == matches[query.skip + i]
    ensures r.Success? && query.skip + Abs(query.limit) <= |matches| ==> |r.value| == Abs(query.limit)
  {
    if query.skip < 0 then Failure(NegativeSkip)
    else Success(Window(matches, query.skip, Abs(query.limit)))
  }

  /** `getAllComplaints`: a query whose shaping fails gets 404, any other is executed. */
  function ListPage<T>(q: map<string, Param>, matches: seq<T>): (r: Result<seq<T>, ListError>)
    ensures CompileQuery(q).Failure? ==> r == Failure(BadShape(CompileQuery(q).error))
    ensures CompileQuery(q).Success? ==> r == PageOf(CompileQuery(q).value, matches)
  {
    match CompileQuery(q)
    case Failure(e) => Failure(BadShape(e))
    case Success(query) => PageOf(query, matches)
  }

  /** Without shaping parameters the response holds the first ten matches (fewer if there are fewer). */
  lemma DefaultListIsFirstTen<T>(q: map<string, Param>, matches: seq<T>)
    requires forall k :: k in q ==> k !in Reserved
    ensures ListPage(q, matches) == Success(matches[..Min(10, |matches|)])
  {
    DefaultShaping(q);
    var w := Window(matches, 0, 10);
    assert w == matches[..Min(10, |matches|)];
  }
}
