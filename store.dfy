/** The core the four resource controllers share once file I/O is stripped
    away: a table of JSON records held as a list, with id assignment, lookup,
    splicing, rebuilding (PUT) and merging (PATCH) a record, slicing a page
    and filtering a search. */
module Store {
  import opened Common
  import opened Json
  import opened JsText

  /** A stored JSON object `{id, ...fields}`: its numeric id and its other keys. */
  datatype Record = Record(id: int, fields: Object)

  /** Ids strictly increase along the list, as register keeps them. */
  predicate IdsIncreasing(s: seq<Record>) {
    forall i, j | 0 <= i < j < |s| :: s[i].id < s[j].id
  }

  predicate NoIdField(s: seq<Record>) {
    forall i | 0 <= i < |s| :: "id" !in s[i].fields
  }

  /** The invariant every handler keeps: increasing ids, and the id held
      only in `id`. */
  predicate Valid(s: seq<Record>) {
    IdsIncreasing(s) && NoIdField(s)
  }

  /** No two records share an id. */
  predicate UniqueIds(s: seq<Record>) {
    forall i, j | 0 <= i < |s| && 0 <= j < |s| && s[i].id == s[j].id :: i == j
  }

  lemma IncreasingIdsAreUnique(s: seq<Record>)
    requires IdsIncreasing(s)
    ensures UniqueIds(s)
  {
  }

  /** `getNext...ID()`: the id after the LAST record, or 1 for an empty
      list. Under increasing ids it exceeds every stored id. */
  function NextId(s: seq<Record>): (n: int)
    ensures s == [] ==> n == 1
    ensures IdsIncreasing(s) ==> forall i | 0 <= i < |s| :: s[i].id < n
  {
    if |s| > 0 then s[|s| - 1].id + 1 else 1
  }

  /** The id depends on the last record, not on the largest id: once the
      order is broken, the next id can collide with a stored one. */
  lemma NextIdFollowsLastRecord()
    ensures NextId([Record(5, map[]), Record(2, map[])]) == 3
    ensures NextId([Record(3, map[]), Record(2, map[])]) == 3
  {
  }

  /** Deleting the last record and registering again hands out its id once
      more, when the last two ids were consecutive. */
  lemma DeletedLastIdIsReused(s: seq<Record>)
    requires |s| >= 2 && s[|s| - 1].id == s[|s| - 2].id + 1
    ensures NextId(s[..|s| - 1]) == s[|s| - 1].id
  {
  }

  /** Appending a record with the next id keeps the invariant. */
  lemma {:induction false} AppendKeepsValid(s: seq<Record>, r: Record)
    requires r.id == NextId(s) && "id" !in r.fields
    ensures Valid(s) ==> Valid(s + [r])
  {
    if Valid(s) {
      var t := s + [r];
      forall i, j | 0 <= i < j < |t| ensures t[i].id < t[j].id {
        if j < |s| {
          assert t[i] == s[i] && t[j] == s[j];
        } else {
          assert t[i] == s[i] && t[j] == r;
        }
      }
    }
  }

  /** `list.findIndex(x => x.id === id)`: the first position holding the
      id, or -1. */
  function IndexOfId(s: seq<Record>, id: int): (i: int)
    ensures -1 <= i < |s|
    ensures 0 <= i ==> s[i].id == id && forall j | 0 <= j < i :: s[j].id != id
    ensures i == -1 <==> forall j | 0 <= j < |s| :: s[j].id != id
  {
    if s == [] then -1
    else if s[0].id == id then 0
    else
      var k := IndexOfId(s[1..], id);
      if k == -1 then -1 else k + 1
  }

  /** `list.some(x => x.id === v)` */
  predicate HasIdValue(s: seq<Record>, v: Value) {
    exists i | 0 <= i < |s| :: v == Num(s[i].id)
  }

  /** The list after `list.splice(i, 1)`. */
  function Removed(s: seq<Record>, i: int): seq<Record>
    requires 0 <= i < |s|
  {
    s[..i] + s[i + 1..]
  }

  /** The positions of `Removed(s, i)`: those before i, then those after. */
  lemma {:induction false} RemovedAt(s: seq<Record>, i: int)
    requires 0 <= i < |s|
    ensures |Removed(s, i)| == |s| - 1
    ensures forall j | 0 <= j < |s| - 1 :: Removed(s, i)[j] == s[if j < i then j else j + 1]
  {
  }

  /** Splicing one record out leaves a subsequence. */
  lemma {:induction false} RemovedIsSubsequence(s: seq<Record>, i: int)
    requires 0 <= i < |s|
    ensures IsSubsequence(Removed(s, i), s)
  {
    var t := Removed(s, i);
    RemovedAt(s, i);
    var f := seq(|t|, j requires 0 <= j < |t| => if j < i then j else j + 1);
    assert Embeds(f, t, s);
  }

  /** Removing the record that holds the id removes exactly that record:
      one fewer record, none left with the id, every other record kept in
      its order, and the invariant preserved. */
  lemma {:induction false} RemovedById(s: seq<Record>, id: int)
    requires Valid(s) && 0 <= IndexOfId(s, id)
    ensures var t := Removed(s, IndexOfId(s, id));
      && |t| == |s| - 1
      && Valid(t)
      && (forall j | 0 <= j < |t| :: t[j].id != id)
      && (forall j | 0 <= j < |s| && s[j].id != id :: s[j] in t)
      && IsSubsequence(t, s)
  {
    var i := IndexOfId(s, id);
    var t := Removed(s, i);
    RemovedAt(s, i);
    RemovedIsSubsequence(s, i);
    SubsequenceKeepsValid(t, s);
    IncreasingIdsAreUnique(s);
    forall j | 0 <= j < |t| ensures t[j].id != id {
      var k := if j < i then j else j + 1;
      assert t[j] == s[k];
    }
    forall j | 0 <= j < |s| && s[j].id != id ensures s[j] in t {
      assert t[if j < i then j else j - 1] == s[j];
    }
  }

  /** Replacing a record by one with the same id keeps the invariant. */
  lemma {:induction false} ReplaceKeepsValid(s: seq<Record>, i: int, r: Record)
    requires 0 <= i < |s| && r.id == s[i].id && "id" !in r.fields
    ensures Valid(s) ==> Valid(s[i := r])
  {
    if Valid(s) {
      var t := s[i := r];
      forall j, k | 0 <= j < k < |t| ensures t[j].id < t[k].id {
        assert t[j].id == s[j].id && t[k].id == s[k].id;
      }
    }
  }

  /** The record `{id: old.id, k: body.k !== undefined ? body.k : old.k, ...}`
      that PUT writes for the named keys: a key the body gives takes the
      body's value, any other named key keeps its old value, and every key
      outside the named ones is dropped. */
  function Rebuild(existing: Record, body: Object, keys: set<string>): (r: Record)
    requires "id" !in keys
    ensures r.id == existing.id && "id" !in r.fields
    ensures forall k | k !in keys :: k !in r.fields
    ensures forall k | k in keys && k in body :: Get(r.fields, k) == Some(body[k])
    ensures forall k | k in keys && k !in body :: Get(r.fields, k) == Get(existing.fields, k)
  {
    Record(existing.id,
           map k | k in keys && (k in body || k in existing.fields) ::
             if k in body then body[k] else existing.fields[k])
  }

  /** Sending the same PUT twice changes nothing the second time. */
  lemma RebuildIdempotent(existing: Record, body: Object, keys: set<string>)
    requires "id" !in keys
    ensures Rebuild(Rebuild(existing, body, keys), body, keys) == Rebuild(existing, body, keys)
  {
    var once := Rebuild(existing, body, keys);
    var twice := Rebuild(once, body, keys);
    assert twice.fields.Keys == once.fields.Keys;
  }

  /** `{...old, ...updates, id: old.id}`: the updates override the record's
      keys, the others stay, and the id is restored. */
  function Merge(existing: Record, updates: Object): (r: Record)
    ensures r.id == existing.id && "id" !in r.fields
    ensures forall k | k != "id" && k in updates :: Get(r.fields, k) == Some(updates[k])
    ensures forall k | k != "id" && k !in updates :: Get(r.fields, k) == Get(existing.fields, k)
  {
    Record(existing.id, (existing.fields + updates) - {"id"})
  }

  /** Sending the same PATCH twice changes nothing the second time. */
  lemma MergeIdempotent(existing: Record, updates: Object)
    ensures Merge(Merge(existing, updates), updates) == Merge(existing, updates)
  {
    var once := Merge(existing, updates);
    var twice := Merge(once, updates);
    assert twice.fields.Keys == once.fields.Keys;
  }

  /** The texts one resource's handlers answer with. */
  datatype Texts = Texts(
    invalidId: string,       // the 400 for an id parameter that is not a number
    notFoundPrefix: string,  // the 404 is prefix + id + suffix
    notFoundSuffix: string,
    idLocked: string,        // the 400 for a PATCH body holding `id`
    updateFailed: string,    // the 500 when PUT or PATCH cannot write
    deleteFailed: string)    // the 500 when DELETE cannot write

  /** `${id}` inside the resource's 404 text. */
  function NotFoundText(t: Texts, id: int): string {
    t.notFoundPrefix + DecimalString(id) + t.notFoundSuffix
  }

  /** `findIndex(x => x.id === parseInt(idParam))`, which is -1 as well
      for an id parameter that is not a number. */
  function Position(s: seq<Record>, idParam: string): (i: int)
    ensures -1 <= i < |s|
    ensures i == -1 <==> ParseInt(idParam).None? || forall j | 0 <= j < |s| :: s[j].id != ParseInt(idParam).value
    ensures 0 <= i ==> Some(s[i].id) == ParseInt(idParam) && forall j | 0 <= j < i :: s[j].id != s[i].id
  {
    match ParseInt(idParam)
    case None => -1
    case Some(id) => IndexOfId(s, id)
  }

  /** `GET /:id`: 400 for an id that is not a number, 404 when no record
      holds it, otherwise the first record with that id. */
  function GetById(s: seq<Record>, idParam: string, t: Texts): (r: Reply<Record>)
    ensures ParseInt(idParam).None? ==> r == BadRequest(t.invalidId)
    ensures ParseInt(idParam).Some? && Position(s, idParam) < 0 ==>
              r == NotFound(NotFoundText(t, ParseInt(idParam).value))
    ensures r.Ok? <==> 0 <= Position(s, idParam)
    ensures r.Ok? ==> r.value in s && Some(r.value.id) == ParseInt(idParam)
    ensures r.Ok? ==> && r.value == s[Position(s, idParam)]
                      && forall j | 0 <= j < Position(s, idParam) :: Some(s[j].id) != ParseInt(idParam)
  {
    match ParseInt(idParam)
    case None => BadRequest(t.invalidId)
    case Some(id) =>
      var i := IndexOfId(s, id);
      if i < 0 then NotFound(NotFoundText(t, id)) else Ok(s[i])
  }

  /** A stored record is found by the decimal text of its id. */
  lemma {:induction false} GetByIdFindsStored(s: seq<Record>, i: int, t: Texts)
    requires Valid(s) && 0 <= i < |s|
    ensures GetById(s, DecimalString(s[i].id), t) == Ok(s[i])
  {
    ParseIntDecimal(s[i].id);
    IncreasingIdsAreUnique(s);
    var k := IndexOfId(s, s[i].id);
    assert 0 <= k && s[k].id == s[i].id;
  }

  /** `parseInt(req.query[key]) || default`: a missing, non-numeric or zero
      parameter gives the default. */
  function QueryInt(q: map<string, string>, key: string, default: int): (n: int)
    requires default != 0
    ensures n != 0
    ensures key !in q ==> n == default
    ensures key in q && ParseInt(q[key]).Some? && ParseInt(q[key]).value != 0 ==>
              n == ParseInt(q[key]).value
    ensures key in q && (ParseInt(q[key]).None? || ParseInt(q[key]).value == 0) ==> n == default
  {
    var p := if key in q then ParseInt(q[key]) else None;
    if p.None? || p.value == 0 then default else p.value
  }

  function Min(a: int, b: int): int { if a < b then a else b }
  function Max(a: int, b: int): int { if a < b then b else a }

  /** `s.slice(start, end)`: a negative bound counts from the end, bounds
      are clipped to the list, and crossed bounds give an empty list. */
  function JsSlice(s: seq<Record>, start: int, end: int): (r: seq<Record>)
    ensures 0 <= start <= end ==> r == s[Min(start, |s|)..Min(end, |s|)]
    ensures 0 <= end <= start ==> r == []
    ensures exists k :: SliceAt(r, s, k)
  {
    var from := if start < 0 then Max(|s| + start, 0) else Min(start, |s|);
    var to := if end < 0 then Max(|s| + end, 0) else Min(end, |s|);
    if from < to then
      assert SliceAt(s[from..to], s, from);
      s[from..to]
    else
      assert SliceAt([], s, 0);
      []
  }

  /** A negative bound means the same as the position that many records
      before the end, or 0 when that is before the start. */
  lemma {:induction false} SliceNegativeBounds(s: seq<Record>, start: int, end: int)
    ensures start < 0 ==> JsSlice(s, start, end) == JsSlice(s, Max(|s| + start, 0), end)
    ensures end < 0 ==> JsSlice(s, start, end) == JsSlice(s, start, Max(|s| + end, 0))
  {
  }

  /** r is the run of s that starts at position k. */
  predicate SliceAt(r: seq<Record>, s: seq<Record>, k: int) {
    0 <= k <= |s| - |r| && r == s[k..k + |r|]
  }

  /** `Math.ceil(a / b)` for a count a and a non-zero limit b. */
  function CeilDiv(a: nat, b: int): (c: int)
    requires b != 0
    ensures b > 0 ==> (c - 1) * b < a <= c * b
    ensures b < 0 ==> c * b <= a < (c - 1) * b
  {
    if b > 0 then
      var c := (a + b - 1) / b;
      DivBounds(a + b - 1, b);
      c
    else
      var c := -(a / -b);
      DivBounds(a, -b);
      c
  }

  /** The index of the first record of page `page`: `(page - 1) * limit`. */
  function PageStart(page: int, limit: int): (start: int)
    ensures page >= 1 && limit >= 1 ==> 0 <= start
  {
    if page >= 1 && limit >= 1 then MulMono(0, page - 1, limit); (page - 1) * limit
    else (page - 1) * limit
  }

  lemma DivBounds(a: int, m: int)
    requires m > 0
    ensures (a / m) * m <= a < (a / m) * m + m
  {
  }

  /** The JSON of a paginated listing. */
  datatype Page = Page(page: int, limit: int, total: nat, totalPages: int, data: seq<Record>)

  /** Page `page` of `limit` records: the slice `[(page-1)*limit, page*limit)`
      clipped to the list, and `totalPages` = ceil(total / limit). */
  function PageOf(s: seq<Record>, page: int, limit: int): (p: Page)
    requires limit != 0
    ensures p.page == page && p.limit == limit && p.total == |s|
    ensures page >= 1 && limit >= 1 ==>
              var start := PageStart(page, limit);
              p.data == s[Min(start, |s|)..Min(start + limit, |s|)]
    ensures limit >= 1 ==> (p.totalPages - 1) * limit < |s| <= p.totalPages * limit
  {
    var start := PageStart(page, limit);
    Page(page, limit, |s|, CeilDiv(|s|, limit), JsSlice(s, start, start + limit))
  }

  /** `GET /?page=&limit=`: page and limit default to 1 and 10 when missing,
      not a number or 0. */
  function Paginate(s: seq<Record>, q: map<string, string>): (p: Page)
    ensures p.total == |s| && p.page != 0 && p.limit != 0
    ensures "page" !in q ==> p.page == 1
    ensures "limit" !in q ==> p.limit == 10
    ensures p.page == QueryInt(q, "page", 1) && p.limit == QueryInt(q, "limit", 10)
    ensures p == PageOf(s, p.page, p.limit)
  {
    PageOf(s, QueryInt(q, "page", 1), QueryInt(q, "limit", 10))
  }

  /** With a positive limit every record sits on exactly one page, at the
      position its index gives, and that page is within `totalPages`. */
  lemma {:induction false} EveryRecordOnOnePage(s: seq<Record>, limit: int, i: int)
    requires limit >= 1 && 0 <= i < |s|
    ensures var page := i / limit + 1;
      && 1 <= page <= PageOf(s, page, limit).totalPages
      && i % limit < |PageOf(s, page, limit).data|
      && PageOf(s, page, limit).data[i % limit] == s[i]
    ensures forall page | page >= 1 && OnPage(i, page, limit) :: page == i / limit + 1
  {
    RecordOnItsPage(s, limit, i);
    OnlyOnePage(i, limit);
  }

  lemma {:induction false} RecordOnItsPage(s: seq<Record>, limit: int, i: int)
    requires limit >= 1 && 0 <= i < |s|
    ensures var page := i / limit + 1;
      && 1 <= page <= PageOf(s, page, limit).totalPages
      && i % limit < |PageOf(s, page, limit).data|
      && PageOf(s, page, limit).data[i % limit] == s[i]
  {
    var page := i / limit + 1;
    var p := PageOf(s, page, limit);
    var start := PageStart(page, limit);
    DivMod(i, limit);
    assert start == (i / limit) * limit;
    assert start <= i < start + limit;
    assert p.data == s[start..Min(start + limit, |s|)];
    assert i - start == i % limit;
    if p.totalPages < page {
      MulMono(p.totalPages, page - 1, limit);
    }
  }

  /** No index lies on two pages. */
  lemma {:induction false} OnlyOnePage(i: int, limit: int)
    requires limit >= 1 && 0 <= i
    ensures forall page | page >= 1 && OnPage(i, page, limit) :: page == i / limit + 1
  {
    var page := i / limit + 1;
    DivMod(i, limit);
    PageStartNext(page, limit);
    forall q | q >= 1 && OnPage(i, q, limit) ensures q == page {
      PageStartNext(q, limit);
      if q < page {
        MulMono(q, page - 1, limit);
      } else if q > page {
        MulMono(page, q - 1, limit);
      }
    }
  }

  lemma DivMod(a: int, m: int)
    requires m > 0
    ensures a == (a / m) * m + a % m && 0 <= a % m < m
  {
  }

  /** Index i falls in the range page `page` covers. */
  predicate OnPage(i: int, page: int, limit: int) {
    PageStart(page, limit) <= i < PageStart(page, limit) + limit
  }

  lemma PageStartNext(page: int, limit: int)
    ensures PageStart(page + 1, limit) == PageStart(page, limit) + limit
    ensures PageStart(page, limit) == page * limit - limit
  {
  }

  lemma MulMono(a: int, b: int, m: int)
    requires a <= b && m >= 1
    ensures a * m <= b * m
  {
  }

  /** f maps each position of t to a position of s holding the same record,
      in increasing order: t is s with some records left out. */
  ghost predicate Embeds(f: seq<int>, t: seq<Record>, s: seq<Record>) {
    && |f| == |t|
    && (forall k | 0 <= k < |f| :: 0 <= f[k] < |s| && t[k] == s[f[k]])
    && (forall k, l | 0 <= k < l < |f| :: f[k] < f[l])
  }

  /** t keeps some of the records of s, in their order. */
  ghost predicate IsSubsequence(t: seq<Record>, s: seq<Record>) {
    exists f :: Embeds(f, t, s)
  }

  lemma {:induction false} EmbeddingKeepsValid(f: seq<int>, t: seq<Record>, s: seq<Record>)
    requires Embeds(f, t, s) && Valid(s)
    ensures Valid(t)
  {
    forall k, l | 0 <= k < l < |t| ensures t[k].id < t[l].id {
      assert f[k] < f[l];
    }
  }

  /** A subsequence of a valid list is valid: search results keep the
      id order and uniqueness of the table. */
  lemma {:induction false} SubsequenceKeepsValid(t: seq<Record>, s: seq<Record>)
    requires IsSubsequence(t, s)
    ensures Valid(s) ==> Valid(t)
  {
    if Valid(s) {
      var f :| Embeds(f, t, s);
      EmbeddingKeepsValid(f, t, s);
    }
  }

  lemma SubsequenceReflexive(s: seq<Record>)
    ensures IsSubsequence(s, s)
  {
    assert Embeds(seq(|s|, k requires 0 <= k < |s| => k), s, s);
  }

  lemma {:induction false} SubsequenceTransitive(a: seq<Record>, b: seq<Record>, c: seq<Record>)
    requires IsSubsequence(a, b) && IsSubsequence(b, c)
    ensures IsSubsequence(a, c)
  {
    var f :| Embeds(f, a, b);
    var g :| Embeds(g, b, c);
    var h := seq(|a|, k requires 0 <= k < |a| => g[f[k]]);
    forall k, l | 0 <= k < l < |h| ensures h[k] < h[l] {
      assert f[k] < f[l];
    }
    assert Embeds(h, a, c);
  }

  /** `s.filter(test)` where the test may throw (None): the filter throws
      when a test on any record throws, and otherwise keeps exactly the
      records the test accepts. */
  function FilterOrFail(s: seq<Record>, test: Record -> Option<bool>): (r: Option<seq<Record>>)
    ensures r.Some? <==> forall i | 0 <= i < |s| :: test(s[i]).Some?
    ensures r.Some? ==> forall x | x in r.value :: x in s && test(x) == Some(true)
    ensures r.Some? ==> forall i | 0 <= i < |s| && test(s[i]) == Some(true) :: s[i] in r.value
  {
    if s == [] then Some([])
    else
      match test(s[0])
      case None => None
      case Some(keep) =>
        var rest := FilterOrFail(s[1..], test);
        assert forall i | 1 <= i < |s| :: s[i] == s[1..][i - 1];
        if rest.None? then None
        else Some(if keep then [s[0]] + rest.value else rest.value)
  }

  /** A subsequence of the tail of s is one of s, with or without the head
      in front. */
  lemma {:induction false} SubsequenceOfTail(t: seq<Record>, s: seq<Record>)
    requires s != [] && IsSubsequence(t, s[1..])
    ensures IsSubsequence(t, s) && IsSubsequence([s[0]] + t, s)
  {
    var f :| Embeds(f, t, s[1..]);
    var g := seq(|f|, k requires 0 <= k < |f| => f[k] + 1);
    forall k | 0 <= k < |g| ensures 0 <= g[k] < |s| && t[k] == s[g[k]] {
      assert t[k] == s[1..][f[k]];
    }
    assert Embeds(g, t, s);
    var h := [0] + g;
    forall k | 0 <= k < |h| ensures 0 <= h[k] < |s| && ([s[0]] + t)[k] == s[h[k]] {
      if k > 0 {
        assert h[k] == g[k - 1];
      }
    }
    assert Embeds(h, [s[0]] + t, s);
  }

  /** A filter's result is a subsequence of its input. */
  lemma {:induction false} FilterIsSubsequence(s: seq<Record>, test: Record -> Option<bool>)
    requires FilterOrFail(s, test).Some?
    ensures IsSubsequence(FilterOrFail(s, test).value, s)
    decreases |s|
  {
    if s == [] {
      assert Embeds([], FilterOrFail(s, test).value, s);
    } else {
      FilterIsSubsequence(s[1..], test);
      SubsequenceOfTail(FilterOrFail(s[1..], test).value, s);
    }
  }

  /** `records = records.filter(test)` when `active` (the query parameter
      is given), after an earlier stage that may already have thrown (None).
      The stage keeps exactly the accepted records, in order, and throws
      when the test throws on one of them. */
  function Stage(r: Option<seq<Record>>, active: bool, test: Record -> Option<bool>): (r': Option<seq<Record>>)
    ensures r'.Some? ==> r.Some? && IsSubsequence(r'.value, r.value)
    ensures r'.Some? ==> forall x | x in r'.value :: x in r.value
    ensures r'.Some? && active ==> forall x | x in r'.value :: test(x) == Some(true)
    ensures r'.Some? && active ==> forall x | x in r.value :: test(x).Some?
    ensures r'.Some? ==> forall x | x in r.value && (!active || test(x) == Some(true)) :: x in r'.value
    ensures r.Some? && (!active || forall x | x in r.value :: test(x).Some?) ==> r'.Some?
  {
    if r.None? then None
    else if !active then
      SubsequenceReflexive(r.value);
      r
    else
      var f := FilterOrFail(r.value, test);
      if f.Some? then FilterIsSubsequence(r.value, test); f
      else
        assert exists i | 0 <= i < |r.value| :: test(r.value[i]).None?;
        f
  }

  /** `x[key].toLowerCase().includes(text.toLowerCase())`, the text filter
      of the searches: it throws (None) when the field is not a string. */
  function ContainsTest(x: Record, key: string, text: string): (b: Option<bool>)
    ensures b.Some? <==> key in x.fields && x.fields[key].Str?
    ensures b == Some(true) <==> key in x.fields && x.fields[key].Str?
                                 && IncludesIgnoringCase(x.fields[key].s, text)
  {
    match Get(x.fields, key)
    case Some(Str(v)) => Some(IncludesIgnoringCase(v, text))
    case _ => None
  }

  /** A query parameter that is present and not empty (truthy). */
  predicate Given(q: map<string, string>, k: string) {
    k in q && q[k] != ""
  }

  /** The text of a query parameter, empty when it is absent. */
  function Param(q: map<string, string>, k: string): string {
    if k in q then q[k] else ""
  }

  /** What a handler leaves behind: its reply and the list then on file. */
  datatype Outcome = Outcome(reply: Reply<Record>, store: seq<Record>)

  /** Why a resource's own body checks turn a request down: a 400 or, for
      an id that names no record of another resource, a 404. */
  datatype Refusal = BadInput(text: string) | Unknown(text: string)

  function Refuse(f: Refusal): (r: Reply<Record>)
    ensures f.BadInput? ==> r == BadRequest(f.text)
    ensures f.Unknown? ==> r == NotFound(f.text)
  {
    match f
    case BadInput(e) => BadRequest(e)
    case Unknown(e) => NotFound(e)
  }

  /** `PUT /:id` over the resource's `keys`: 400 for an id that is not a
      number, 404 for an id no record holds, then the resource's own
      refusal of the body, then 500 when the write fails; otherwise the
      record at the id's position is rebuilt and nothing else changes. */
  function UpdateSpec(s: seq<Record>, idParam: string, body: Object, keys: set<string>,
                      refusal: Option<Refusal>, t: Texts, writeOk: bool): (o: Outcome)
    requires "id" !in keys
    ensures ParseInt(idParam).None? ==> o == Outcome(BadRequest(t.invalidId), s)
    ensures ParseInt(idParam).Some? && Position(s, idParam) < 0 ==>
              o == Outcome(NotFound(NotFoundText(t, ParseInt(idParam).value)), s)
    ensures 0 <= Position(s, idParam) && refusal.Some? ==> o == Outcome(Refuse(refusal.value), s)
    ensures 0 <= Position(s, idParam) && refusal.None? && !writeOk ==>
              o == Outcome(ServerError(t.updateFailed), s)
    ensures o.reply.Ok? <==> 0 <= Position(s, idParam) && refusal.None? && writeOk
    ensures o.reply.Ok? ==>
              var i := Position(s, idParam);
              o.reply.value == Rebuild(s[i], body, keys) && o.store == s[i := o.reply.value]
    ensures !o.reply.Ok? ==> o.store == s
    ensures |o.store| == |s| && forall j | 0 <= j < |s| :: o.store[j].id == s[j].id
    ensures Valid(s) ==> Valid(o.store)
  {
    var i := Position(s, idParam);
    if ParseInt(idParam).None? then Outcome(BadRequest(t.invalidId), s)
    else if i < 0 then Outcome(NotFound(NotFoundText(t, ParseInt(idParam).value)), s)
    else if refusal.Some? then Outcome(Refuse(refusal.value), s)
    else if !writeOk then Outcome(ServerError(t.updateFailed), s)
    else
      var r := Rebuild(s[i], body, keys);
      ReplaceKeepsValid(s, i, r);
      Outcome(Ok(r), s[i := r])
  }

  /** `PATCH /:id`: 400 for an id that is not a number, then 400 for a body
      holding `id` (before the list is read), 404 for an id no record
      holds, then the resource's own refusal of the body, then 500 when the
      write fails; otherwise the body is merged over the record at the id's
      position and nothing else changes. */
  function PatchSpec(s: seq<Record>, idParam: string, updates: Object,
                     refusal: Option<Refusal>, t: Texts, writeOk: bool): (o: Outcome)
    ensures ParseInt(idParam).None? ==> o == Outcome(BadRequest(t.invalidId), s)
    ensures ParseInt(idParam).Some? && "id" in updates ==> o == Outcome(BadRequest(t.idLocked), s)
    ensures ParseInt(idParam).Some? && "id" !in updates && Position(s, idParam) < 0 ==>
              o == Outcome(NotFound(NotFoundText(t, ParseInt(idParam).value)), s)
    ensures "id" !in updates && 0 <= Position(s, idParam) && refusal.Some? ==>
              o == Outcome(Refuse(refusal.value), s)
    ensures "id" !in updates && 0 <= Position(s, idParam) && refusal.None? && !writeOk ==>
              o == Outcome(ServerError(t.updateFailed), s)
    ensures o.reply.Ok? <==> "id" !in updates && 0 <= Position(s, idParam) && refusal.None? && writeOk
    ensures o.reply.Ok? ==>
              var i := Position(s, idParam);
              o.reply.value == Merge(s[i], updates) && o.store == s[i := o.reply.value]
    ensures !o.reply.Ok? ==> o.store == s
    ensures |o.store| == |s| && forall j | 0 <= j < |s| :: o.store[j].id == s[j].id
    ensures Valid(s) ==> Valid(o.store)
  {
    var i := Position(s, idParam);
    if ParseInt(idParam).None? then Outcome(BadRequest(t.invalidId), s)
    else if "id" in updates then Outcome(BadRequest(t.idLocked), s)
    else if i < 0 then Outcome(NotFound(NotFoundText(t, ParseInt(idParam).value)), s)
    else if refusal.Some? then Outcome(Refuse(refusal.value), s)
    else if !writeOk then Outcome(ServerError(t.updateFailed), s)
    else
      var r := Merge(s[i], updates);
      ReplaceKeepsValid(s, i, r);
      Outcome(Ok(r), s[i := r])
  }

  /** `DELETE /:id`: 400 for an id that is not a number, 404 for an id no
      record holds, 500 when the write fails; otherwise the record at the
      id's position is spliced out and returned. The list left behind is
      always the old one with records left out, in order. */
  function DeleteSpec(s: seq<Record>, idParam: string, t: Texts, writeOk: bool): (o: Outcome)
    ensures ParseInt(idParam).None? ==> o == Outcome(BadRequest(t.invalidId), s)
    ensures ParseInt(idParam).Some? && Position(s, idParam) < 0 ==>
              o == Outcome(NotFound(NotFoundText(t, ParseInt(idParam).value)), s)
    ensures 0 <= Position(s, idParam) && !writeOk ==> o == Outcome(ServerError(t.deleteFailed), s)
    ensures o.reply.Ok? <==> 0 <= Position(s, idParam) && writeOk
    ensures o.reply.Ok? ==>
              var i := Position(s, idParam);
              o.reply.value == s[i] && o.store == Removed(s, i) && |o.store| == |s| - 1
    ensures !o.reply.Ok? ==> o.store == s
    ensures IsSubsequence(o.store, s)
    ensures Valid(s) ==> Valid(o.store)
    ensures Valid(s) && o.reply.Ok? ==>
              && (forall j | 0 <= j < |o.store| :: o.store[j].id != o.reply.value.id)
              && (forall j | 0 <= j < |s| && s[j].id != o.reply.value.id :: s[j] in o.store)
  {
    var i := Position(s, idParam);
    if ParseInt(idParam).None? then SubsequenceReflexive(s); Outcome(BadRequest(t.invalidId), s)
    else if i < 0 then
      SubsequenceReflexive(s);
      Outcome(NotFound(NotFoundText(t, ParseInt(idParam).value)), s)
    else if !writeOk then SubsequenceReflexive(s); Outcome(ServerError(t.deleteFailed), s)
    else
      SpliceOut(s, i);
      Outcome(Ok(s[i]), Removed(s, i))
  }

  /** What splicing out the record at position i leaves, as DELETE needs it. */
  lemma {:induction false} SpliceOut(s: seq<Record>, i: int)
    requires 0 <= i < |s|
    ensures |Removed(s, i)| == |s| - 1
    ensures IsSubsequence(Removed(s, i), s)
    ensures Valid(s) ==> Valid(Removed(s, i))
    ensures Valid(s) && i == IndexOfId(s, s[i].id) ==>
              && (forall j | 0 <= j < |Removed(s, i)| :: Removed(s, i)[j].id != s[i].id)
              && (forall j | 0 <= j < |s| && s[j].id != s[i].id :: s[j] in Removed(s, i))
  {
    RemovedAt(s, i);
    RemovedIsSubsequence(s, i);
    SubsequenceKeepsValid(Removed(s, i), s);
    if Valid(s) && i == IndexOfId(s, s[i].id) {
      RemovedById(s, s[i].id);
    }
  }

  /** The PUT handler's steps on a read list: parse the id, find its first
      position, refuse the body if the resource does, rebuild the record
      and put it back; returns the answer and the list written back. */
  method ApplyUpdate(s: seq<Record>, idParam: string, body: Object, keys: set<string>,
                     refusal: Option<Refusal>, t: Texts, writeOk: bool) returns (r: Reply<Record>, s': seq<Record>)
    requires "id" !in keys
    ensures Outcome(r, s') == UpdateSpec(s, idParam, body, keys, refusal, t, writeOk)
  {
    s' := s;
    var id := ParseInt(idParam);
    if id.None? {
      return BadRequest(t.invalidId), s;
    }
    var i := IndexOfId(s, id.value);
    if i == -1 {
      return NotFound(NotFoundText(t, id.value)), s;
    }
    if refusal.Some? {
      return Refuse(refusal.value), s;
    }
    var updated := Rebuild(s[i], body, keys);
    if !writeOk {
      return ServerError(t.updateFailed), s;
    }
    s' := s[i := updated];
    r := Ok(updated);
  }

  /** The PATCH handler's steps: the id check comes before the list is
      searched. */
  method ApplyPatch(s: seq<Record>, idParam: string, updates: Object, refusal: Option<Refusal>,
                    t: Texts, writeOk: bool) returns (r: Reply<Record>, s': seq<Record>)
    ensures Outcome(r, s') == PatchSpec(s, idParam, updates, refusal, t, writeOk)
  {
    s' := s;
    var id := ParseInt(idParam);
    if id.None? {
      return BadRequest(t.invalidId), s;
    }
    if "id" in updates {
      return BadRequest(t.idLocked), s;
    }
    var i := IndexOfId(s, id.value);
    if i == -1 {
      return NotFound(NotFoundText(t, id.value)), s;
    }
    if refusal.Some? {
      return Refuse(refusal.value), s;
    }
    var updated := Merge(s[i], updates);
    if !writeOk {
      return ServerError(t.updateFailed), s;
    }
    s' := s[i := updated];
    r := Ok(updated);
  }

  /** The DELETE handler's steps: `splice(index, 1)` and the removed
      record. */
  method ApplyDelete(s: seq<Record>, idParam: string, t: Texts, writeOk: bool)
    returns (r: Reply<Record>, s': seq<Record>)
    ensures Outcome(r, s') == DeleteSpec(s, idParam, t, writeOk)
  {
    s' := s;
    var id := ParseInt(idParam);
    if id.None? {
      return BadRequest(t.invalidId), s;
    }
    var i := IndexOfId(s, id.value);
    if i == -1 {
      return NotFound(NotFoundText(t, id.value)), s;
    }
    var deleted := s[i];
    if !writeOk {
      return ServerError(t.deleteFailed), s;
    }
    s' := s[..i] + s[i + 1..];
    r := Ok(deleted);
    assert i == Position(s, idParam) && s' == Removed(s, i);
  }
}
