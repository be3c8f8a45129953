/**
 * The text-archive repository (src/repositories/aozora-repository.ts):
 * validation and copying of work summaries, normalisation of fetched text,
 * the search guard and filter, and the two process-wide caches. Network
 * responses are inputs; what was requested is recorded in a log.
 */
module AozoraRepository {
  import opened Wrappers
  import opened Text

  /** A decoded JSON value. Numbers are kept as integers. */
  datatype Json =
    | JNull
    | JBool(b: bool)
    | JNumber(n: int)
    | JString(s: string)
    | JArray(elements: seq<Json>)
    | JObject(fields: map<string, Json>)

  /** AozoraWorkSummary. A URL is `None` for JSON null; a reading is `None`
      when the key is missing and otherwise holds whatever value was sent. */
  datatype WorkSummary = WorkSummary(
    id: string,
    title: string,
    titleReading: Option<Json>,
    author: string,
    authorReading: Option<Json>,
    textFileUrl: Option<string>,
    xhtmlHtmlFileUrl: Option<string>)

  /** AozoraWork: a summary with the full text. */
  datatype Work = Work(summary: WorkSummary, content: string)

  /** What a fetch yields: a failure (network error, non-OK status or a body
      that is not JSON) or the decoded body. */
  datatype Fetched = FetchFailed | Body(json: Json)

  /** The requests the repository sends, in order. */
  datatype ApiRequest = SearchRequest(q: string, limit: nat) | TextRequest(id: string)

  /** The errors the repository raises. */
  datatype RepositoryError =
    | SearchCallFailed   // 検索APIの呼び出しに失敗しました
    | SearchShapeInvalid // 検索APIレスポンスの形式が不正です
    | TextCallFailed     // 本文APIの呼び出しに失敗しました
    | TextShapeInvalid   // 本文APIレスポンスの形式が不正です
    | SummaryCacheMissing // 作品情報キャッシュが見つかりません
    | TextEmpty          // 本文の抽出に失敗しました

  const SEARCH_LIMIT: nat := 100

  predicate IsStringField(fields: map<string, Json>, key: string) {
    key in fields && fields[key].JString?
  }

  predicate IsNullableStringField(fields: map<string, Json>, key: string) {
    key in fields && (fields[key].JNull? || fields[key].JString?)
  }

  /** isAozoraSummary: an object whose id, title and author are strings and
      whose two URL fields are each null or a string. Any other value,
      arrays included, fails. */
  predicate IsAozoraSummary(value: Json) {
    && value.JObject?
    && IsStringField(value.fields, "id")
    && IsStringField(value.fields, "title")
    && IsStringField(value.fields, "author")
    && IsNullableStringField(value.fields, "textFileUrl")
    && IsNullableStringField(value.fields, "xhtmlHtmlFileUrl")
  }

  function NullableString(v: Json): Option<string>
    requires v.JNull? || v.JString?
  {
    if v.JNull? then None else Some(v.s)
  }

  function OptionalField(fields: map<string, Json>, key: string): Option<Json> {
    if key in fields then Some(fields[key]) else None
  }

  /** normalizeSummary applied to a value that passed isAozoraSummary: the
      seven listed fields, copied without change; nothing else is kept. */
  function NormalizeSummary(value: Json): WorkSummary
    requires IsAozoraSummary(value)
  {
    var f := value.fields;
    WorkSummary(
      f["id"].s, f["title"].s, OptionalField(f, "titleReading"),
      f["author"].s, OptionalField(f, "authorReading"),
      NullableString(f["textFileUrl"]), NullableString(f["xhtmlHtmlFileUrl"]))
  }

  /** A summary written back as the JSON object it came from. */
  function SummaryJson(w: WorkSummary): (v: Json)
    ensures v.JObject?
  {
    var required := map[
      "id" := JString(w.id), "title" := JString(w.title), "author" := JString(w.author),
      "textFileUrl" := if w.textFileUrl.Some? then JString(w.textFileUrl.value) else JNull,
      "xhtmlHtmlFileUrl" := if w.xhtmlHtmlFileUrl.Some? then JString(w.xhtmlHtmlFileUrl.value) else JNull];
    var withTitle := if w.titleReading.Some? then required["titleReading" := w.titleReading.value] else required;
    JObject(if w.authorReading.Some? then withTitle["authorReading" := w.authorReading.value] else withTitle)
  }

  const SUMMARY_KEYS: set<string> :=
    {"id", "title", "titleReading", "author", "authorReading", "textFileUrl", "xhtmlHtmlFileUrl"}

  /** Every summary passes the check, and normalising its JSON gives it back. */
  lemma SummaryRoundTrip(w: WorkSummary)
    ensures IsAozoraSummary(SummaryJson(w))
    ensures NormalizeSummary(SummaryJson(w)) == w
  {
  }

  /** Normalising keeps exactly the seven summary fields of a valid value:
      they are copied unchanged and every other key is dropped. */
  lemma NormalizeKeepsSummaryFields(value: Json)
    requires IsAozoraSummary(value)
    ensures SummaryJson(NormalizeSummary(value)).fields
         == map k | k in value.fields && k in SUMMARY_KEYS :: value.fields[k]
  {

  }

  /** `items.filter(isAozoraSummary).map(normalizeSummary)` */
  function ValidSummaries(items: seq<Json>): (r: seq<WorkSummary>)
    ensures |r| <= |items|
    ensures forall w :: w in r ==> exists v :: v in items && IsAozoraSummary(v) && NormalizeSummary(v) == w
    ensures forall v :: v in items && IsAozoraSummary(v) ==> NormalizeSummary(v) in r
    ensures |items| == 1 ==> r == (if IsAozoraSummary(items[0]) then [NormalizeSummary(items[0])] else [])
  {
    if items == [] then []
    else if IsAozoraSummary(items[0]) then [NormalizeSummary(items[0])] + ValidSummaries(items[1..])
    else ValidSummaries(items[1..])
  }

  /** Filtering works element by element and keeps the order of the array:
      with the one-element case in the contract of `ValidSummaries`, this
      fixes the result on every array, duplicates included. */
  lemma {:induction false} ValidSummariesConcat(a: seq<Json>, b: seq<Json>)
    ensures ValidSummaries(a + b) == ValidSummaries(a) + ValidSummaries(b)
  {
    if a == [] {
      assert a + b == b;
    } else {
      assert (a + b)[1..] == a[1..] + b;
      ValidSummariesConcat(a[1..], b);
    }
  }

  /** The truthiness test `!!work.textFileUrl`: present and not empty. */
  predicate HasTextFile(w: WorkSummary) {
    w.textFileUrl.Some? && w.textFileUrl.value != ""
  }

  /** `items.filter((work) => !!work.textFileUrl)` */
  function WithTextFile(items: seq<WorkSummary>): (r: seq<WorkSummary>)
    ensures |r| <= |items|
    ensures forall w :: w in r <==> w in items && HasTextFile(w)
    ensures |items| == 1 ==> r == (if HasTextFile(items[0]) then items else [])
  {
    if items == [] then []
    else if HasTextFile(items[0]) then [items[0]] + WithTextFile(items[1..])
    else WithTextFile(items[1..])
  }

  /** The filter keeps the order and the repetitions of its input. */
  lemma {:induction false} WithTextFileConcat(a: seq<WorkSummary>, b: seq<WorkSummary>)
    ensures WithTextFile(a + b) == WithTextFile(a) + WithTextFile(b)
  {
    if a == [] {
      assert a + b == b;
    } else {
      assert (a + b)[1..] == a[1..] + b;
      WithTextFileConcat(a[1..], b);
    }
  }

  /** `summaryCache.set(item.id, item)` for each item in order. */
  function CacheAll(cache: map<string, WorkSummary>, items: seq<WorkSummary>): (r: map<string, WorkSummary>)
    ensures r.Keys == cache.Keys + (set w | w in items :: w.id)
    ensures forall id :: id in cache && (forall w :: w in items ==> w.id != id) ==> r[id] == cache[id]
    ensures (forall id :: id in cache ==> cache[id].id == id) ==> forall id :: id in r ==> r[id].id == id
  {
    if items == [] then cache
    else CacheAll(cache, items[..|items| - 1])[items[|items| - 1].id := items[|items| - 1]]
  }

  /** After caching, each id of the batch maps to the last item carrying it. */
  lemma {:induction false} CacheAllLastWins(cache: map<string, WorkSummary>, items: seq<WorkSummary>, i: nat)
    requires i < |items|
    requires forall j :: i < j < |items| ==> items[j].id != items[i].id
    ensures CacheAll(cache, items)[items[i].id] == items[i]
  {
    if i < |items| - 1 {
      CacheAllLastWins(cache, items[..|items| - 1], i);
    }
  }

  /** A run of line feeds at the start of `s`. */
  function NewlineRun(s: string): (n: nat)
    ensures n <= |s|
    ensures forall k :: 0 <= k < n ==> s[k] == '\n'
    ensures n < |s| ==> s[n] != '\n'
  {
    if s == [] || s[0] != '\n' then 0 else 1 + NewlineRun(s[1..])
  }

  /** `s.replace(/\n{3,}/g, "\n\n")`: every maximal run of three or more
      line feeds becomes exactly two. */
  function CollapseBlankLines(s: string): string
    decreases |s|
  {
    if s == [] then []
    else if s[0] == '\n' then
      var n := NewlineRun(s);
      (if n >= 3 then "\n\n" else s[..n]) + CollapseBlankLines(s[n..])
    else [s[0]] + CollapseBlankLines(s[1..])
  }

  predicate TripleNewlineAt(s: string, i: nat)
    requires i + 2 < |s|
  {
    s[i] == '\n' && s[i + 1] == '\n' && s[i + 2] == '\n'
  }

  predicate NoTripleNewline(s: string) {
    forall i: nat :: i + 2 < |s| ==> !TripleNewlineAt(s, i)
  }

  /** At most two line feeds in front of a string that has no run of three
      and does not start with a line feed make no run of three. */
  lemma NoTripleAfterNewlines(head: string, tail: string)
    requires |head| <= 2 && forall k :: 0 <= k < |head| ==> head[k] == '\n'
    requires NoTripleNewline(tail) && (tail == [] || tail[0] != '\n')
    ensures NoTripleNewline(head + tail)
  {
    var r := head + tail;
    forall i: nat | i + 2 < |r| ensures !TripleNewlineAt(r, i) {
      if i >= |head| {
        assert !TripleNewlineAt(tail, i - |head|);
      } else {
        assert r[|head|] == tail[0];
      }
    }
  }

  /** A code point other than a line feed in front of a string without a
      run of three makes no run of three. */
  lemma NoTripleAfterChar(c: char, tail: string)
    requires c != '\n' && NoTripleNewline(tail)
    ensures NoTripleNewline([c] + tail)
  {
    var r := [c] + tail;
    forall i: nat | i + 2 < |r| ensures !TripleNewlineAt(r, i) {
      if i >= 1 {
        assert !TripleNewlineAt(tail, i - 1);
      }
    }
  }

  /** Collapsing introduces no carriage return, starts with what the input
      starts with, leaves no run of three line feeds, deletes nothing but
      line feeds, and changes nothing in a text that has no such run. */
  lemma CollapseBlankLinesProperties(s: string)
    ensures NoTripleNewline(CollapseBlankLines(s))
    ensures '\r' !in s ==> '\r' !in CollapseBlankLines(s)
    ensures s != [] ==> CollapseBlankLines(s) != [] && CollapseBlankLines(s)[0] == s[0]
    ensures Without(CollapseBlankLines(s), '\n') == Without(s, '\n')
    ensures NoTripleNewline(s) ==> CollapseBlankLines(s) == s
  {
    CollapseLeavesNoTriple(s);
    CollapseKeepsOtherChars(s);
    if NoTripleNewline(s) {
      CollapseFixesNoTriple(s);
    }
  }

  /** No run of three line feeds survives; the first code point and the
      absence of carriage returns are kept. */
  lemma {:induction false} CollapseLeavesNoTriple(s: string)
    ensures NoTripleNewline(CollapseBlankLines(s))
    ensures '\r' !in s ==> '\r' !in CollapseBlankLines(s)
    ensures s != [] ==> CollapseBlankLines(s) != [] && CollapseBlankLines(s)[0] == s[0]
    decreases |s|
  {
    if s == [] {
    } else if s[0] == '\n' {
      var n := NewlineRun(s);
      var head: string := if n >= 3 then "\n\n" else s[..n];
      CollapseLeavesNoTriple(s[n..]);
      NoTripleAfterNewlines(head, CollapseBlankLines(s[n..]));
    } else {
      CollapseLeavesNoTriple(s[1..]);
      NoTripleAfterChar(s[0], CollapseBlankLines(s[1..]));
    }
  }

  /** Only line feeds are removed: every other code point survives, in
      order. */
  lemma {:induction false} CollapseKeepsOtherChars(s: string)
    ensures Without(CollapseBlankLines(s), '\n') == Without(s, '\n')
    decreases |s|
  {
    if s == [] {
    } else if s[0] == '\n' {
      var n := NewlineRun(s);
      var head: string := if n >= 3 then "\n\n" else s[..n];
      CollapseKeepsOtherChars(s[n..]);
      WithoutConcat(head, CollapseBlankLines(s[n..]), '\n');
      WithoutOnly(head, '\n');
      assert s == s[..n] + s[n..];
      WithoutConcat(s[..n], s[n..], '\n');
      WithoutOnly(s[..n], '\n');
    } else {
      CollapseKeepsOtherChars(s[1..]);
      assert ([s[0]] + CollapseBlankLines(s[1..]))[1..] == CollapseBlankLines(s[1..]);
    }
  }

  /** A text without a run of three line feeds is left as it is. */
  lemma {:induction false} CollapseFixesNoTriple(s: string)
    requires NoTripleNewline(s)
    ensures CollapseBlankLines(s) == s
    decreases |s|
  {
    if s == [] {
    } else if s[0] == '\n' {
      var n := NewlineRun(s);
      if n >= 3 {
        assert TripleNewlineAt(s, 0);
      }
      SliceKeepsNoTriple(s, n, |s|);
      assert s[n..|s|] == s[n..];
      CollapseFixesNoTriple(s[n..]);
      assert s == s[..n] + s[n..];
    } else {
      SliceKeepsNoTriple(s, 1, |s|);
      assert s[1..|s|] == s[1..];
      CollapseFixesNoTriple(s[1..]);
      assert s == [s[0]] + s[1..];
    }
  }

  /** A maximal run of `n` line feeds becomes two line feeds when `n` is
      three or more and stays as it is otherwise; the rest of the text is
      collapsed on its own. */
  lemma CollapseRun(n: nat, rest: string)
    requires rest == [] || rest[0] != '\n'
    ensures CollapseBlankLines(Repeat('\n', n) + rest)
         == Repeat('\n', if n >= 3 then 2 else n) + CollapseBlankLines(rest)
  {
    var s := Repeat('\n', n) + rest;
    if n == 0 {
      assert s == rest;
    } else {
      var m := NewlineRun(s);
      assert rest != [] ==> s[n] == rest[0];
      if m < n {
        assert false;
      } else if m > n {
        assert false;
      }
      assert s[..n] == Repeat('\n', n);
      assert s[n..] == rest;
      assert Repeat('\n', 2) == "\n\n";
    }
  }

  /** A slice of a string without a run of three line feeds has none, and
      a slice of a string without a carriage return has none either. */
  lemma SliceKeepsNoTriple(s: string, i: nat, j: nat)
    requires i <= j <= |s|
    requires NoTripleNewline(s)
    ensures NoTripleNewline(s[i..j])
    ensures '\r' !in s ==> '\r' !in s[i..j]
  {
    var t := s[i..j];
    forall k: nat | k + 2 < |t| ensures !TripleNewlineAt(t, k) {
      assert !TripleNewlineAt(s, i + k);
    }
    forall k | 0 <= k < |t| ensures t[k] == s[i + k] {
    }
  }

  /** normalizeAozoraText: CR-LF and CR become LF, runs of three or more
      line feeds become two, and surrounding whitespace is trimmed. */
  function NormalizeAozoraText(text: string): string {
    Trim(CollapseBlankLines(ReplaceCr(ReplaceCrlf(text))))
  }

  /** A text in the form the normaliser produces: no carriage return, no
      run of three line feeds, no whitespace at either end. */
  predicate IsNormalText(t: string) {
    && '\r' !in t
    && NoTripleNewline(t)
    && (t == [] || (!IsWhitespace(t[0]) && !IsWhitespace(t[|t| - 1])))
  }

  /** The normalised text holds no carriage return, no run of three line
      feeds, and neither starts nor ends with whitespace; it shows every
      visible character of the input in order; normalising it again changes
      nothing. */
  lemma NormalizeAozoraTextProperties(text: string)
    ensures '\r' !in NormalizeAozoraText(text)
    ensures NoTripleNewline(NormalizeAozoraText(text))
    ensures var r := NormalizeAozoraText(text);
      r == [] || (!IsWhitespace(r[0]) && !IsWhitespace(r[|r| - 1]))
    ensures NonWhitespace(NormalizeAozoraText(text)) == NonWhitespace(text)
    ensures NormalizeAozoraText(NormalizeAozoraText(text)) == NormalizeAozoraText(text)
  {
    NormalizeKeepsVisibleText(text);
    NormalizeIsNormal(text);
    NormalizeFixesNormalText(NormalizeAozoraText(text));
  }

  /** No visible character is added, dropped or moved by normalisation. */
  lemma NormalizeKeepsVisibleText(text: string)
    ensures NonWhitespace(NormalizeAozoraText(text)) == NonWhitespace(text)
  {
    var crlf := ReplaceCrlf(text);
    NonWhitespaceWithout(crlf, '\r');
    NonWhitespaceWithout(text, '\r');
    var lf := ReplaceCr(crlf);
    ReplaceCrKeepsNonWhitespace(crlf);
    var collapsed := CollapseBlankLines(lf);
    CollapseKeepsOtherChars(lf);
    NonWhitespaceWithout(collapsed, '\n');
    NonWhitespaceWithout(lf, '\n');
    TrimKeepsNonWhitespace(collapsed);
  }

  /** A text already in normal form is its own normalisation. */
  lemma NormalizeFixesNormalText(t: string)
    requires IsNormalText(t)
    ensures NormalizeAozoraText(t) == t
  {
    assert ReplaceCrlf(t) == t;
    assert ReplaceCr(t) == t;
    CollapseFixesNoTriple(t);
  }

  /** Whatever the input, the normaliser's output is in normal form. */
  lemma NormalizeIsNormal(text: string)
    ensures IsNormalText(NormalizeAozoraText(text))
  {
    var lf := ReplaceCr(ReplaceCrlf(text));
    CollapseLeavesNoTriple(lf);
    TrimIsNormal(CollapseBlankLines(lf));
  }

  /** Trimming a text without carriage returns or runs of three line feeds
      puts it in normal form. */
  lemma TrimIsNormal(s: string)
    requires '\r' !in s && NoTripleNewline(s)
    ensures IsNormalText(Trim(s))
  {
    var r := Trim(s);
    var start := LeadingWhitespace(s);
    SliceKeepsNoTriple(s, start, start + |r|);
  }

  /** The process-wide caches of the repository module and the log of the
      requests it has sent. */
  class Repository {
    var contentCache: map<string, string>
    var summaryCache: map<string, WorkSummary>
    var requests: seq<ApiRequest>

    /** Only non-empty text ever enters the content cache, every summary is
        cached under its own id, and a text is cached only together with
        its summary. */
    ghost predicate Valid()
      reads this
    {
      && (forall id :: id in contentCache ==> contentCache[id] != "")
      && (forall id :: id in summaryCache ==> summaryCache[id].id == id)
      && contentCache.Keys <= summaryCache.Keys
    }

    constructor()
      ensures Valid()
      ensures contentCache == map[] && summaryCache == map[] && requests == []
    {
      contentCache := map[];
      summaryCache := map[];
      requests := [];
    }

    /** fetchSearchItems: send the trimmed query with limit 100, check that
        the body has an `items` array, keep and normalise the valid
        summaries, and cache each one by id. */
    method FetchSearchItems(query: string, response: Fetched) returns (r: Result<seq<WorkSummary>, RepositoryError>)
      requires Valid()
      modifies this
      ensures Valid()
      ensures requests == old(requests) + [SearchRequest(Trim(query), SEARCH_LIMIT)]
      ensures contentCache == old(contentCache)
      ensures response.FetchFailed? ==> r == Err(SearchCallFailed) && summaryCache == old(summaryCache)
      ensures response.Body? && !HasItemsArray(response.json) ==>
        r == Err(SearchShapeInvalid) && summaryCache == old(summaryCache)
      ensures response.Body? && HasItemsArray(response.json) ==>
        var items := ValidSummaries(response.json.fields["items"].elements);
        r == Ok(items) && summaryCache == CacheAll(old(summaryCache), items)
    {
      requests := requests + [SearchRequest(Trim(query), SEARCH_LIMIT)];
      if response.FetchFailed? {
        return Err(SearchCallFailed);
      }
      if !HasItemsArray(response.json) {
        return Err(SearchShapeInvalid);
      }
      var normalizedItems := ValidSummaries(response.json.fields["items"].elements);
      var i := 0;
      while i < |normalizedItems|
        invariant 0 <= i <= |normalizedItems|
        invariant summaryCache == CacheAll(old(summaryCache), normalizedItems[..i])
        invariant contentCache == old(contentCache)
        invariant requests == old(requests) + [SearchRequest(Trim(query), SEARCH_LIMIT)]
      {
        assert normalizedItems[..i + 1][..i] == normalizedItems[..i];
        summaryCache := summaryCache[normalizedItems[i].id := normalizedItems[i]];
        i := i + 1;
      }
      assert normalizedItems[..i] == normalizedItems;
      return Ok(normalizedItems);
    }

    /** searchWorks: a blank query answers [] without any request;
        otherwise only the results with a non-empty text-file URL. */
    method SearchWorks(query: string, response: Fetched) returns (r: Result<seq<WorkSummary>, RepositoryError>)
      requires Valid()
      modifies this
      ensures Valid()
      ensures Trim(query) == [] ==> r == Ok([]) && unchanged(this)
      ensures Trim(query) != [] ==> requests == old(requests) + [SearchRequest(Trim(query), SEARCH_LIMIT)]
      ensures r.Ok? ==> forall w :: w in r.value ==> HasTextFile(w)
      ensures Trim(query) != [] ==> contentCache == old(contentCache)
      ensures Trim(query) != [] && response.FetchFailed? ==>
        r == Err(SearchCallFailed) && summaryCache == old(summaryCache)
      ensures Trim(query) != [] && response.Body? && !HasItemsArray(response.json) ==>
        r == Err(SearchShapeInvalid) && summaryCache == old(summaryCache)
      // every valid result is cached, even those the filter then drops
      ensures Trim(query) != [] && response.Body? && HasItemsArray(response.json) ==>
        var items := ValidSummaries(response.json.fields["items"].elements);
        r == Ok(WithTextFile(items)) && summaryCache == CacheAll(old(summaryCache), items)
    {
      if Trim(query) == [] {
        return Ok([]);
      }
      var items := FetchSearchItems(query, response);
      if items.Err? {
        return Err(items.error);
      }
      return Ok(WithTextFile(items.value));
    }

    /** fetchWorkContentById: a content-cache hit is answered from the
        caches without a request (and fails if the summary is not cached);
        otherwise the text is fetched, the summary is cached under the id
        the response carries, and non-empty text is cached beside it. */
    method FetchWorkContentById(id: string, response: Fetched) returns (r: Result<Work, RepositoryError>)
      requires Valid()
      modifies this
      ensures Valid()
      // so the missing-summary error cannot arise while the caches are valid
      ensures id in old(contentCache) ==> r.Ok?
      // a fetched work is answered from the caches next time
      ensures r.Ok? ==>
        && r.value.summary.id in contentCache && contentCache[r.value.summary.id] == r.value.content
        && r.value.summary.id in summaryCache && summaryCache[r.value.summary.id] == r.value.summary
      ensures id in old(contentCache) ==>
        && unchanged(this)
        && r == (if id in old(summaryCache) then Ok(Work(old(summaryCache)[id], old(contentCache)[id]))
                 else Err(SummaryCacheMissing))
      ensures id !in old(contentCache) ==> requests == old(requests) + [TextRequest(id)]
      ensures id !in old(contentCache) && response.FetchFailed? ==>
        r == Err(TextCallFailed) && contentCache == old(contentCache) && summaryCache == old(summaryCache)
      ensures id !in old(contentCache) && response.Body? && !IsTextPayload(response.json) ==>
        r == Err(TextShapeInvalid) && contentCache == old(contentCache) && summaryCache == old(summaryCache)
      ensures id !in old(contentCache) && response.Body? && IsTextPayload(response.json) ==>
        var work := NormalizeSummary(response.json.fields["work"]);
        var text := NormalizeAozoraText(response.json.fields["text"].s);
        && summaryCache == old(summaryCache)[work.id := work]
        && (text == [] ==> r == Err(TextEmpty) && contentCache == old(contentCache))
        && (text != [] ==> r == Ok(Work(work, text)) && contentCache == old(contentCache)[work.id := text])
    {
      if id in contentCache && contentCache[id] != "" {
        var cached := contentCache[id];
        if id !in summaryCache {
          return Err(SummaryCacheMissing);
        }
        return Ok(Work(summaryCache[id], cached));
      }
      requests := requests + [TextRequest(id)];
      if response.FetchFailed? {
        return Err(TextCallFailed);
      }
      if !IsTextPayload(response.json) {
        return Err(TextShapeInvalid);
      }
      var work := NormalizeSummary(response.json.fields["work"]);
      var text := NormalizeAozoraText(response.json.fields["text"].s);
      summaryCache := summaryCache[work.id := work];
      if text == [] {
        return Err(TextEmpty);
      }
      contentCache := contentCache[work.id := text];
      return Ok(Work(work, text));
    }

    /** listWorks: the search with the empty query, hence no request and
        no works. */
    method ListWorks(response: Fetched) returns (r: Result<seq<WorkSummary>, RepositoryError>)
      requires Valid()
      modifies this
      ensures r == Ok([]) && unchanged(this)
    {
      r := SearchWorks("", response);
    }

    /** getWorkById: fetchWorkContentById under another name. */
    method GetWorkById(id: string, response: Fetched) returns (r: Result<Work, RepositoryError>)
      requires Valid()
      modifies this
      ensures Valid()
      ensures id in old(contentCache) ==> unchanged(this) && r == Ok(Work(old(summaryCache)[id], old(contentCache)[id]))
      ensures id !in old(contentCache) ==> requests == old(requests) + [TextRequest(id)]
      ensures r.Ok? ==>
        && r.value.summary.id in contentCache && contentCache[r.value.summary.id] == r.value.content
        && r.value.summary.id in summaryCache && summaryCache[r.value.summary.id] == r.value.summary
      ensures id !in old(contentCache) && response.FetchFailed? ==>
        r == Err(TextCallFailed) && contentCache == old(contentCache) && summaryCache == old(summaryCache)
      ensures id !in old(contentCache) && response.Body? && !IsTextPayload(response.json) ==>
        r == Err(TextShapeInvalid) && contentCache == old(contentCache) && summaryCache == old(summaryCache)
      // the summary is cached under the id the response carries, even when the text is empty
      ensures id !in old(contentCache) && response.Body? && IsTextPayload(response.json) ==>
        var work := NormalizeSummary(response.json.fields["work"]);
        var text := NormalizeAozoraText(response.json.fields["text"].s);
        && summaryCache == old(summaryCache)[work.id := work]
        && (text == [] ==> r == Err(TextEmpty) && contentCache == old(contentCache))
        && (text != [] ==> r == Ok(Work(work, text)) && contentCache == old(contentCache)[work.id := text])
    {
      r := FetchWorkContentById(id, response);
    }
  }

  /** `Array.isArray(data?.items)` */
  predicate HasItemsArray(body: Json) {
    body.JObject? && "items" in body.fields && body.fields["items"].JArray?
  }

  /** `data && isAozoraSummary(data.work) && typeof data.text === "string"` */
  predicate IsTextPayload(body: Json) {
    body.JObject? && "work" in body.fields && IsAozoraSummary(body.fields["work"])
    && "text" in body.fields && body.fields["text"].JString?
  }
}
