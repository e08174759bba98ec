/**
 * `OfferController.searchOffers`: the raw paging and sorting parameters become
 * a zero-based page request, the raw title becomes one `("title", ":", keyword)`
 * criterion per keyword, and the filter is built from those criteria before the
 * date and price criteria are added to the builder.
 */
module OfferSearch {
  import opened Common
  import opened JavaText
  import opened Criteria
  import opened OfferStore

  /**
   * The `AppConfiguration` constants, and the per-character lower-casing of
   * `String.toLowerCase`. `defaultPage` and `defaultPageSize` are the values
   * `Integer.valueOf` reads from the string constants `DEFAULT_PAGE` and
   * `DEFAULT_PAGE_SIZE`.
   */
  datatype Config = Config(
    firstPage: Int32,
    defaultPage: Int32,
    defaultPageSize: Int32,
    pageSizeMax: Int32,
    defaultSortField: string,
    defaultSortDirection: string,
    titleMaxLength: nat,
    acceptableTitleChars: set<char>,
    lowerChar: char -> char)

  /** The 1-based page number: the requested one, unless absent or below `FIRST_PAGE`. */
  function PageNumber(cfg: Config, page: Option<Int32>): (r: Int32)
  {
    match page
    case Some(p) => if p < cfg.firstPage then cfg.defaultPage else p
    case None => cfg.defaultPage
  }

  /** The page size: the requested one capped at `PAGE_SIZE_MAX`, or the default when absent. */
  function PageSize(cfg: Config, pageSize: Option<Int32>): (r: Int32)
  {
    match pageSize
    case Some(s) => if s < cfg.pageSizeMax then s else cfg.pageSizeMax
    case None => cfg.defaultPageSize
  }

  function SortField(cfg: Config, sort: Option<string>): string {
    match sort
    case Some(s) => s
    case None => cfg.defaultSortField
  }

  function SortOrder(cfg: Config, order: Option<string>): string {
    match order
    case Some(o) => o
    case None => cfg.defaultSortDirection
  }

  /** The zero-based page request; `pageNumber - FIRST_PAGE` is Java `int` subtraction. */
  function Pageable(cfg: Config, page: Option<Int32>, pageSize: Option<Int32>,
                    sort: Option<string>, order: Option<string>): PageRequest
  {
    PageRequest(Wrap32(PageNumber(cfg, page) - cfg.firstPage), PageSize(cfg, pageSize),
                SortOrder(cfg, order), SortField(cfg, sort))
  }

  /** The page number is the default exactly when the request is absent or below `FIRST_PAGE`. */
  lemma PageNumberRule(cfg: Config, page: Option<Int32>)
    ensures page.None? || page.value < cfg.firstPage ==> PageNumber(cfg, page) == cfg.defaultPage
    ensures page.Some? && page.value >= cfg.firstPage ==> PageNumber(cfg, page) == page.value
    ensures cfg.defaultPage >= cfg.firstPage ==> PageNumber(cfg, page) >= cfg.firstPage
    ensures cfg.defaultPage >= cfg.firstPage ==> PageNumber(cfg, Some(PageNumber(cfg, page))) == PageNumber(cfg, page)
  {
  }

  /**
   * The page size is `min(given, PAGE_SIZE_MAX)`, or the default when absent: it
   * never exceeds the maximum (when the default does not), and a zero or
   * negative size is passed on, not raised.
   */
  lemma PageSizeRule(cfg: Config, pageSize: Option<Int32>)
    ensures pageSize.None? ==> PageSize(cfg, pageSize) == cfg.defaultPageSize
    ensures pageSize.Some? ==>
      PageSize(cfg, pageSize) <= pageSize.value && PageSize(cfg, pageSize) <= cfg.pageSizeMax &&
      (PageSize(cfg, pageSize) == pageSize.value || PageSize(cfg, pageSize) == cfg.pageSizeMax)
    ensures cfg.defaultPageSize <= cfg.pageSizeMax ==> PageSize(cfg, pageSize) <= cfg.pageSizeMax
    ensures pageSize.Some? && pageSize.value <= 0 <= cfg.pageSizeMax ==> PageSize(cfg, pageSize) == pageSize.value
  {
  }

  /** The sort field and direction take their defaults only when absent. */
  lemma SortRule(cfg: Config, sort: Option<string>, order: Option<string>)
    ensures SortField(cfg, sort) == if sort.Some? then sort.value else cfg.defaultSortField
    ensures SortOrder(cfg, order) == if order.Some? then order.value else cfg.defaultSortDirection
  {
  }

  /**
   * With `FIRST_PAGE >= 0` and `DEFAULT_PAGE >= FIRST_PAGE` the subtraction never
   * wraps, and the zero-based index is `pageNumber - FIRST_PAGE >= 0`.
   */
  lemma PageIndexNonNegative(cfg: Config, page: Option<Int32>, pageSize: Option<Int32>,
                             sort: Option<string>, order: Option<string>)
    requires 0 <= cfg.firstPage <= cfg.defaultPage
    ensures Pageable(cfg, page, pageSize, sort, order).page == PageNumber(cfg, page) - cfg.firstPage
    ensures Pageable(cfg, page, pageSize, sort, order).page >= 0
  {
    PageNumberRule(cfg, page);
  }

  /** A title is searched for when present, longer than one character, and not all digits. */
  predicate TitleSearched(title: Option<string>) {
    title.Some? && |title.value| > 1 && !IsNumericId(title.value)
  }

  /** The keywords: `split(" ")` of lower-case(strip(truncate(title))), or none when the guard fails. */
  function TitleKeywords(cfg: Config, title: Option<string>): seq<string>
  {
    if TitleSearched(title) then
      Split(ToLowerCase(RemoveDisallowed(Truncate(title.value, cfg.titleMaxLength), cfg.acceptableTitleChars), cfg.lowerChar))
    else []
  }

  /** Every keyword is at most `OFFER_TITLE_MAX_LENGTH` long and holds no space. */
  lemma KeywordsBounded(cfg: Config, title: Option<string>)
    ensures forall i :: 0 <= i < |TitleKeywords(cfg, title)| ==>
      |TitleKeywords(cfg, title)[i]| <= cfg.titleMaxLength && ' ' !in TitleKeywords(cfg, title)[i]
  {
    if TitleSearched(title) {
      SplitParts(ToLowerCase(RemoveDisallowed(Truncate(title.value, cfg.titleMaxLength), cfg.acceptableTitleChars), cfg.lowerChar));
    }
  }

  /**
   * The guard looks at the raw string: absent, empty, one-character and
   * all-digit titles give no keyword, but digits separated by a space do.
   */
  lemma TitleGuard(cfg: Config)
    ensures TitleKeywords(cfg, None) == []
    ensures forall c: char :: TitleKeywords(cfg, Some([c])) == []
    ensures forall s: string :: |s| <= 1 || IsNumericId(s) ==> TitleKeywords(cfg, Some(s)) == []
    ensures TitleSearched(Some("12 34"))
  {
    forall c: char ensures TitleKeywords(cfg, Some([c])) == [] {
      assert !TitleSearched(Some([c]));
    }
    forall s: string | |s| <= 1 || IsNumericId(s) ensures TitleKeywords(cfg, Some(s)) == [] {
      assert !TitleSearched(Some(s));
    }
    assert !IsDigit(' ');
    assert "12 34"[2] == ' ';
  }

  /**
   * No per-keyword filtering: a title made of allowed, already lower-case words
   * gives back exactly those words as keywords, short, numeric and empty ones
   * included.
   */
  lemma KeywordsOfLowerCaseWords(cfg: Config, words: seq<string>)
    requires |words| >= 1
    requires forall i :: 0 <= i < |words| ==> ' ' !in words[i]
    requires |words| >= 2 ==> words[|words| - 1] != ""
    requires |Join(words, ' ')| <= cfg.titleMaxLength
    requires forall i :: 0 <= i < |Join(words, ' ')| ==>
      Join(words, ' ')[i] in cfg.acceptableTitleChars && cfg.lowerChar(Join(words, ' ')[i]) == Join(words, ' ')[i]
    requires TitleSearched(Some(Join(words, ' ')))
    ensures TitleKeywords(cfg, Some(Join(words, ' '))) == words
  {
    var t := Join(words, ' ');
    assert ToLowerCase(t, cfg.lowerChar) == t;
    SplitOfJoin(words);
  }

  /** "red bike 2" keeps the one-character numeric keyword "2". */
  lemma ShortNumericKeywordKept(cfg: Config)
    requires cfg.titleMaxLength >= 10
    requires forall c :: c in "red bike2" ==> c in cfg.acceptableTitleChars && cfg.lowerChar(c) == c
    ensures TitleKeywords(cfg, Some("red bike 2")) == ["red", "bike", "2"]
  {
    var words := ["red", "bike", "2"];
    var t := Join(words, ' ');
    assert t == "red bike 2";
    assert !IsDigit(t[0]);
    forall i | 0 <= i < |t| ensures t[i] in "red bike2" {
    }
    KeywordsOfLowerCaseWords(cfg, words);
  }

  function TitleCriterion(keyword: string): Criterion {
    Criterion("title", ":", Text(keyword))
  }

  /** One title criterion per keyword, in keyword order. */
  function TitleCriteria(keywords: seq<string>): (r: seq<Criterion>)
    ensures |r| == |keywords|
    ensures forall i :: 0 <= i < |r| ==> r[i] == TitleCriterion(keywords[i])
  {
    seq(|keywords|, i requires 0 <= i < |keywords| => TitleCriterion(keywords[i]))
  }

  /** The criterion an `ifPresent` adds: none for an absent parameter. */
  function Bound(key: string, operation: string, value: Option<Value>): seq<Criterion> {
    if value.Some? then [Criterion(key, operation, value.value)] else []
  }

  function LongValue(v: Option<Int64>): Option<Value> {
    if v.Some? then Some(Long(v.value)) else None
  }

  function FloatValue(v: Option<bv32>): Option<Value> {
    if v.Some? then Some(Float(v.value)) else None
  }

  /** The criteria added after the filter was built: date bounds, then price bounds. */
  function DateAndPriceCriteria(dateMin: Option<Int64>, dateMax: Option<Int64>,
                                priceMin: Option<bv32>, priceMax: Option<bv32>): seq<Criterion>
  {
    Bound("date", "≥", LongValue(dateMin)) + Bound("date", "≤", LongValue(dateMax))
    + Bound("basePrice", "≥", FloatValue(priceMin)) + Bound("basePrice", "≤", FloatValue(priceMax))
  }

  /** The filter passed to `getAll`: a function of the title alone. */
  function SearchFilter(cfg: Config, title: Option<string>): Option<Specification> {
    Compile(TitleCriteria(TitleKeywords(cfg, title)))
  }

  /** No keyword, no filter: a title that fails the guard searches every offer. */
  lemma NoKeywordNoFilter(cfg: Config, title: Option<string>)
    ensures SearchFilter(cfg, title) == None <==> TitleKeywords(cfg, title) == []
    ensures !TitleSearched(title) ==> SearchFilter(cfg, title) == None
  {
  }

  /** The search filter admits an offer iff every keyword's title criterion accepts it. */
  lemma SearchFilterIsKeywordConjunction<O>(cfg: Config, title: Option<string>, o: O, accepts: (Criterion, O) -> bool)
    ensures Admits(SearchFilter(cfg, title), o, accepts) <==>
      forall i :: 0 <= i < |TitleKeywords(cfg, title)| ==> accepts(TitleCriterion(TitleKeywords(cfg, title)[i]), o)
  {
    var kws := TitleKeywords(cfg, title);
    var cs := TitleCriteria(kws);
    CompiledFilterIsConjunction(cs, o, accepts);
    assert forall c :: c in cs <==> exists i :: 0 <= i < |kws| && c == TitleCriterion(kws[i]);
    if forall i :: 0 <= i < |kws| ==> accepts(TitleCriterion(kws[i]), o) {
      forall c | c in cs ensures accepts(c, o) {
        var i :| 0 <= i < |kws| && c == TitleCriterion(kws[i]);
      }
    }
  }

  /** The `for` loop over the keywords: one `with("title", ":", keyword)` each. */
  method AddTitleKeywords(builder: OfferSpecificationsBuilder, keywords: seq<string>)
    modifies builder
    ensures builder.params == old(builder.params) + TitleCriteria(keywords)
  {
    for i := 0 to |keywords|
      invariant builder.params == old(builder.params) + TitleCriteria(keywords[..i])
    {
      assert TitleCriteria(keywords[..i + 1]) == TitleCriteria(keywords[..i]) + [TitleCriterion(keywords[i])];
      var _ := builder.With("title", ":", Text(keywords[i]));
    }
    assert keywords[..|keywords|] == keywords;
  }

  /** `parameter.ifPresent(v -> builder.with(key, operation, v))`. */
  method IfPresent(builder: OfferSpecificationsBuilder, key: string, operation: string, value: Option<Value>)
    modifies builder
    ensures builder.params == old(builder.params) + Bound(key, operation, value)
  {
    if value.Some? {
      var _ := builder.With(key, operation, value.value);
    }
  }

  /**
   * The title part of `searchOffers`: the keywords' criteria go into the fresh
   * builder when the guard passes, and the filter is built from them.
   */
  method AddTitleAndBuild(cfg: Config, builder: OfferSpecificationsBuilder, title: Option<string>)
    returns (filter: Option<Specification>)
    requires builder.params == []
    modifies builder
    ensures builder.params == TitleCriteria(TitleKeywords(cfg, title))
    ensures filter == SearchFilter(cfg, title)
  {
    ghost var titleCriteria := TitleCriteria(TitleKeywords(cfg, title));
    if TitleSearched(title) {
      var titleKeywords := TitleKeywords(cfg, title);
      AddTitleKeywords(builder, titleKeywords);
      assert [] + titleCriteria == titleCriteria;
    } else {
      assert titleCriteria == [];
    }
    filter := builder.Build();
  }

  /** `OfferController`, as far as `searchOffers` uses it. */
  class OfferController {
    const service: OfferService
    const cfg: Config

    constructor (service: OfferService, cfg: Config)
      ensures this.service == service && this.cfg == cfg
    {
      this.service := service;
      this.cfg := cfg;
    }

    /**
     * `searchOffers`. The builder is filled with the title criteria, built, and
     * only then given the date and price criteria; `finalCriteria` is what it
     * holds at the end, which never reaches the query.
     */
    method SearchOffers(page: Option<Int32>, pageSize: Option<Int32>, sort: Option<string>, order: Option<string>,
                        title: Option<string>, priceMin: Option<bv32>, priceMax: Option<bv32>,
                        dateMin: Option<Int64>, dateMax: Option<Int64>)
      returns (result: Page, ghost finalCriteria: seq<Criterion>)
      ensures result == service.GetAll(Pageable(cfg, page, pageSize, sort, order), SearchFilter(cfg, title))
      ensures finalCriteria == TitleCriteria(TitleKeywords(cfg, title)) + DateAndPriceCriteria(dateMin, dateMax, priceMin, priceMax)
    {
      var pageable := Pageable(cfg, page, pageSize, sort, order);

      var builder := new OfferSpecificationsBuilder();
      var filter := AddTitleAndBuild(cfg, builder, title);

      IfPresent(builder, "date", "≥", LongValue(dateMin));
      IfPresent(builder, "date", "≤", LongValue(dateMax));
      IfPresent(builder, "basePrice", "≥", FloatValue(priceMin));
      IfPresent(builder, "basePrice", "≤", FloatValue(priceMax));
      finalCriteria := builder.params;

      result := service.GetAll(pageable, filter);
    }
  }

  /**
   * End to end: a stored offer is on the search's candidate list iff every title
   * keyword's criterion accepts it; date and price bounds play no part.
   */
  lemma SearchCandidates(s: OfferService, cfg: Config, pageable: PageRequest, title: Option<string>, id: Uuid)
    requires id in s.store
    ensures s.store[id] in s.GetAll(pageable, SearchFilter(cfg, title)).candidates <==>
      forall i :: 0 <= i < |TitleKeywords(cfg, title)| ==> s.accepts(TitleCriterion(TitleKeywords(cfg, title)[i]), s.store[id])
  {
    SearchFilterIsKeywordConjunction(cfg, title, s.store[id], s.accepts);
  }
}
