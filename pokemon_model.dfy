/**
 * The data shaping of the Pokémon list and detail pages: query parsing,
 * pagination, the search and ids filters, zero-padded codes, name and
 * description selection by language, type and stat mapping, image URLs, game
 * configuration defaults and the final filter of list items. The remote
 * catalogue, the bundled JSON data and the preferences file are parameters.
 */
module PokemonModel {
  import opened Js

  /** The settings read from the preferences file. */
  datatype Preferences = Preferences(pageSize: int, imageUrlPrefix: string, imageType: string)

  /** The language used when no description exists in the requested one. */
  const DefaultLang := "en"

  // ---------------------------------------------------------------------
  // Query parameters and pagination

  /** A list query; every field may be absent. */
  datatype Query = Query(
    q: Option<string>,
    ids: Option<string>,
    listType: Option<string>,
    lang: Option<string>,
    limit: Option<int>,
    pageSize: Option<int>,
    offset: Option<int>,
    pageIndex: Option<int>)

  /**
   * parseParams: a copy of the query with `limit` and `offset` resolved;
   * `chunkSize` is the default page size.
   */
  function ParseParams(query: Query, chunkSize: int): (params: Query)
    ensures params == query.(limit := params.limit, offset := params.offset)
    ensures params.limit.Some? && params.offset.Some?
    ensures query.limit.Some? ==> params.limit == query.limit
    ensures query.limit.None? ==> params.limit == Some(query.pageSize.GetOr(chunkSize))
    ensures query.offset.Some? ==> params.offset == query.offset
    ensures query.offset.None? && TruthyNumber(query.pageIndex) ==>
              params.offset == Some(params.limit.value * (query.pageIndex.value - 1))
    ensures query.offset.None? && !TruthyNumber(query.pageIndex) ==> params.offset == Some(0)
  {
    var limit := query.limit.GetOr(query.pageSize.GetOr(chunkSize));
    var offset :=
      if query.offset.Some? then query.offset.value
      else if TruthyNumber(query.pageIndex) then limit * (query.pageIndex.value - 1)
      else 0;
    query.(limit := Some(limit), offset := Some(offset))
  }

  /** Parsing parameters that are already parsed changes nothing. */
  lemma ParseParamsIdempotent(query: Query, chunkSize: int)
    ensures ParseParams(ParseParams(query, chunkSize), chunkSize) == ParseParams(query, chunkSize)
  {
  }

  /** getChunk: the page of at most `limit` entries (or `chunkSize` when `limit` is falsy) from `offset` on. */
  function GetChunk<T>(list: seq<T>, limit: Option<int>, offset: Option<int>, chunkSize: int): (chunk: seq<T>)
    ensures |chunk| <= |list|
    ensures var size := if TruthyNumber(limit) then limit.value else chunkSize;
            var start := offset.GetOr(0);
            && (0 <= size ==> |chunk| <= size)
            && (0 <= start && 0 <= size ==> chunk == list[Min(start, |list|)..Min(start + size, |list|)])
  {
    var size := if TruthyNumber(limit) then limit.value else chunkSize;
    var start := offset.GetOr(0);
    Slice(list, start, size + start)
  }

  /** The p-th page (counting from 1) of `size` entries, as requested by a query with `pageIndex`. */
  lemma PageOfQuery<T>(list: seq<T>, query: Query, chunkSize: int, size: int, p: int)
    requires query.limit == Some(size) && size > 0
    requires query.offset.None? && query.pageIndex == Some(p) && p >= 1
    ensures var params := ParseParams(query, chunkSize);
            GetChunk(list, params.limit, params.offset, chunkSize)
              == list[Min(size * (p - 1), |list|)..Min(size * p, |list|)]
  {
    var params := ParseParams(query, chunkSize);
    var start := size * (p - 1);
    NonNegativeProduct(size, p - 1);
    assert params.limit == Some(size) && params.offset == Some(start);
    assert start + size == size * p;
  }

  lemma NonNegativeProduct(a: int, b: int)
    requires 0 <= a && 0 <= b
    ensures 0 <= a * b
  {
  }

  /** The first n pages of `size` entries, one after the other. */
  function Pages<T>(list: seq<T>, size: int, n: nat, chunkSize: int): seq<T> {
    if n == 0 then []
    else Pages(list, size, n - 1, chunkSize) + GetChunk(list, Some(size), Some(size * (n - 1)), chunkSize)
  }

  /** Paging neither skips nor repeats entries: the first n pages are the first n*size entries. */
  lemma {:induction false} PagesCoverPrefix<T>(list: seq<T>, size: int, n: nat, chunkSize: int)
    requires size > 0
    ensures Pages(list, size, n, chunkSize) == list[..Min(size * n, |list|)]
  {
    if n > 0 {
      PagesCoverPrefix(list, size, n - 1, chunkSize);
      var s0 := size * (n - 1);
      NextMultiple(size, n);
      var a, b := Min(s0, |list|), Min(s0 + size, |list|);
      var prev := Pages(list, size, n - 1, chunkSize);
      var chunk := GetChunk(list, Some(size), Some(s0), chunkSize);
      assert Pages(list, size, n, chunkSize) == prev + chunk;
      assert prev == list[..a];
      ChunkAt(list, size, s0, chunkSize);
      assert chunk == list[a..b];
      assert b == Min(size * n, |list|);
      assert list[..a] + list[a..b] == list[..b];
    }
  }

  /** One more multiple: `size * n` is `size * (n - 1)` plus `size`, and non-negative. */
  lemma NextMultiple(size: int, n: nat)
    requires size > 0 && n > 0
    ensures size * n == size * (n - 1) + size && size * (n - 1) >= 0
  {
    NonNegativeProduct(size, n - 1);
  }

  /** A chunk of a positive size from a non-negative offset is the clipped range of the list. */
  lemma ChunkAt<T>(list: seq<T>, size: int, start: int, chunkSize: int)
    requires size > 0 && start >= 0
    ensures GetChunk(list, Some(size), Some(start), chunkSize) == list[Min(start, |list|)..Min(start + size, |list|)]
  {
  }

  // ---------------------------------------------------------------------
  // The search and ids filters

  /** An entry of the catalogue or of the search list; `types` holds the entry's type names. */
  datatype Entry = Entry(name: Option<string>, types: Option<seq<string>>)

  /**
   * The search predicate: the name contains the term, or some type is named
   * exactly the term. An absent term is `undefined`: `includes` then looks
   * for the text "undefined" and no type name equals it.
   */
  function MatchesSearch(e: Entry, term: Option<string>): (r: bool)
    ensures r <==>
      || (e.name.Some? && exists k :: 0 <= k <= |e.name.value| && term.GetOr("undefined") <= e.name.value[k..])
      || (e.types.Some? && term.Some? && term.value in e.types.value)
    ensures term.None? && e.name.None? ==> !r
  {
    var needle := term.GetOr("undefined");
    (e.name.Some? && Includes(e.name.value, needle)) ||
    (e.types.Some? && term.Some? && term.value in e.types.value)
  }

  /** The filter of searchListItems over the search list, for the query text `q`. */
  function SearchFilter(list: seq<Entry>, q: Option<string>): (found: seq<Entry>)
    ensures var term := if q.Some? then Some(ToLower(q.value)) else None;
            && (forall i :: 0 <= i < |found| ==> found[i] in list && MatchesSearch(found[i], term))
            && (forall i :: 0 <= i < |list| && MatchesSearch(list[i], term) ==> list[i] in found)
            && IsSubsequence(found, list)
            && multiset(found) <= multiset(list)
            && forall i :: 0 <= i < |list| ==>
                 multiset(found)[list[i]] == if MatchesSearch(list[i], term) then multiset(list)[list[i]] else 0
  {
    var term := if q.Some? then Some(ToLower(q.value)) else None;
    FilterIsSubsequence(list, (e: Entry) => MatchesSearch(e, term));
    FilterCounts(list, (e: Entry) => MatchesSearch(e, term));
    Filter(list, (e: Entry) => MatchesSearch(e, term))
  }

  /** A search keeps an entry whose name contains the lower-cased query. */
  lemma SearchFindsName(list: seq<Entry>, q: string, i: nat, at: nat)
    requires i < |list| && list[i].name.Some?
    requires at <= |list[i].name.value| && ToLower(q) <= list[i].name.value[at..]
    ensures list[i] in SearchFilter(list, Some(q))
  {
  }

  /** The entry's name is one of `names`. */
  predicate NameAmong(e: Entry, names: seq<string>) {
    e.name.Some? && e.name.value in names
  }

  /** The ids filter of getListItems: the entries whose name is one of the comma-separated ids. */
  function IdsFilter(list: seq<Entry>, ids: string): (kept: seq<Entry>)
    ensures forall i :: 0 <= i < |kept| ==> kept[i] in list && kept[i].name.Some? && kept[i].name.value in Split(ids, ',')
    ensures forall i :: 0 <= i < |list| && list[i].name.Some? && list[i].name.value in Split(ids, ',') ==> list[i] in kept
    ensures IsSubsequence(kept, list)
    ensures multiset(kept) <= multiset(list)
    ensures forall i :: 0 <= i < |list| ==>
              multiset(kept)[list[i]] == if NameAmong(list[i], Split(ids, ',')) then multiset(list)[list[i]] else 0
  {
    var names := Split(ids, ',');
    FilterIsSubsequence(list, (e: Entry) => NameAmong(e, names));
    FilterCounts(list, (e: Entry) => NameAmong(e, names));
    Filter(list, (e: Entry) => NameAmong(e, names))
  }

  /**
   * getListItems before items are fetched: the ids filter when `ids` is
   * truthy, the shuffle (whose order is random and comes in as `shuffle`)
   * for the "random" list type, then the page.
   */
  function ListSelection(list: seq<Entry>, params: Query, chunkSize: int, shuffle: seq<Entry> -> seq<Entry>): (page: seq<Entry>)
    requires forall l :: multiset(shuffle(l)) == multiset(l)
    ensures forall i :: 0 <= i < |page| ==>
              && page[i] in list
              && (TruthyString(params.ids) ==> NameAmong(page[i], Split(params.ids.value, ',')))
    ensures var picked := if TruthyString(params.ids) then IdsFilter(list, params.ids.value) else list;
            && (params.listType != Some("random") ==> page == GetChunk(picked, params.limit, params.offset, chunkSize))
            && |page| == |GetChunk(picked, params.limit, params.offset, chunkSize)|
            && multiset(page) <= multiset(picked)
            && (params.listType == Some("random") ==> page == GetChunk(shuffle(picked), params.limit, params.offset, chunkSize))
  {
    var picked := if TruthyString(params.ids) then IdsFilter(list, params.ids.value) else list;
    var ordered := if params.listType == Some("random") then shuffle(picked) else picked;
    PermutationMembers(ordered, picked);
    var page := GetChunk(ordered, params.limit, params.offset, chunkSize);
    ChunkMembers(ordered, params.limit, params.offset, chunkSize);
    ChunkLength(ordered, picked, params.limit, params.offset, chunkSize);
    ChunkSubMultiset(ordered, params.limit, params.offset, chunkSize);
    page
  }

  /** A chunk takes each entry of the list at most as often as the list holds it. */
  lemma ChunkSubMultiset<T>(list: seq<T>, limit: Option<int>, offset: Option<int>, chunkSize: int)
    ensures multiset(GetChunk(list, limit, offset, chunkSize)) <= multiset(list)
  {
    var size := if TruthyNumber(limit) then limit.value else chunkSize;
    var start := offset.GetOr(0);
    var lo, hi := SliceBound(start, |list|), SliceBound(size + start, |list|);
    if lo < hi {
      assert list == list[..lo] + list[lo..hi] + list[hi..];
    }
  }

  /** Chunks of two lists of the same length have the same length. */
  lemma ChunkLength(a: seq<Entry>, b: seq<Entry>, limit: Option<int>, offset: Option<int>, chunkSize: int)
    requires multiset(a) == multiset(b)
    ensures |GetChunk(a, limit, offset, chunkSize)| == |GetChunk(b, limit, offset, chunkSize)|
  {
    assert |a| == |multiset(a)| == |multiset(b)| == |b|;
    var size := if TruthyNumber(limit) then limit.value else chunkSize;
    var start := offset.GetOr(0);
    SliceLength(a, b, start, size + start);
  }

  /** A reordering has the same members. */
  lemma PermutationMembers(a: seq<Entry>, b: seq<Entry>)
    requires multiset(a) == multiset(b)
    ensures forall i :: 0 <= i < |a| ==> a[i] in b
  {
    forall i | 0 <= i < |a|
      ensures a[i] in b
    {
      assert a[i] in multiset(a);
    }
  }

  /** Every entry of a chunk is an entry of the list. */
  lemma ChunkMembers<T>(list: seq<T>, limit: Option<int>, offset: Option<int>, chunkSize: int)
    ensures forall i :: 0 <= i < |GetChunk(list, limit, offset, chunkSize)| ==> GetChunk(list, limit, offset, chunkSize)[i] in list
  {
  }

  /** searchListItems before items are fetched: the search filter, then the page. */
  function SearchSelection(list: seq<Entry>, params: Query, chunkSize: int): (page: seq<Entry>)
    ensures var term := if params.q.Some? then Some(ToLower(params.q.value)) else None;
            forall i :: 0 <= i < |page| ==> page[i] in list && MatchesSearch(page[i], term)
    ensures page == GetChunk(SearchFilter(list, params.q), params.limit, params.offset, chunkSize)
  {
    var found := SearchFilter(list, params.q);
    var page := GetChunk(found, params.limit, params.offset, chunkSize);
    assert forall x :: x in page ==> x in found;
    page
  }

  /** getPokemons before items are fetched: a search when `q` is truthy, else the catalogue list. */
  function SelectEntries(query: Query, catalogue: seq<Entry>, searchList: seq<Entry>, chunkSize: int,
                         shuffle: seq<Entry> -> seq<Entry>): (page: seq<Entry>)
    requires forall l :: multiset(shuffle(l)) == multiset(l)
    ensures TruthyString(query.q) ==>
              forall i :: 0 <= i < |page| ==> page[i] in searchList && MatchesSearch(page[i], Some(ToLower(query.q.value)))
    ensures !TruthyString(query.q) ==>
              forall i :: 0 <= i < |page| ==>
                && page[i] in catalogue
                && (TruthyString(query.ids) ==> NameAmong(page[i], Split(query.ids.value, ',')))
    ensures var params := ParseParams(query, chunkSize);
            var picked := if TruthyString(query.ids) then IdsFilter(catalogue, query.ids.value) else catalogue;
            && (TruthyString(query.q) ==> page == GetChunk(SearchFilter(searchList, query.q), params.limit, params.offset, chunkSize))
            && (!TruthyString(query.q) && query.listType != Some("random") ==>
                  page == GetChunk(picked, params.limit, params.offset, chunkSize))
            && (!TruthyString(query.q) ==> |page| == |GetChunk(picked, params.limit, params.offset, chunkSize)|)
            && (!TruthyString(query.q) ==> multiset(page) <= multiset(picked))
  {
    var params := ParseParams(query, chunkSize);
    if TruthyString(params.q) then SearchSelection(searchList, params, chunkSize)
    else ListSelection(catalogue, params, chunkSize, shuffle)
  }

  // ---------------------------------------------------------------------
  // Codes and images

  /** The value of `formatCode`: the input itself when falsy (`undefined` or 0), else a string. */
  datatype CodeValue = Undefined | Number(n: int) | Text(s: string)

  /** formatCode: the decimal numeral of a truthy code left-padded with '0' to three characters. */
  function FormatCode(code: Option<int>): (r: CodeValue)
    ensures code.None? ==> r == Undefined
    ensures code == Some(0) ==> r == Number(0)
    ensures TruthyNumber(code) ==> r.Text?
    ensures TruthyNumber(code) ==>
              var digits := IntToString(code.value);
              && |r.s| == Max(|digits|, 3)
              && r.s[|r.s| - |digits|..] == digits
              && forall i :: 0 <= i < |r.s| - |digits| ==> r.s[i] == '0'
  {
    if !TruthyNumber(code) then (if code.None? then Undefined else Number(0))
    else Text(PadStart(IntToString(code.value), 3, '0'))
  }

  /** A positive code reads back as the number it came from. */
  lemma FormatCodeRoundTrip(n: int)
    requires n >= 1
    ensures AllDigits(FormatCode(Some(n)).s)
    ensures DecimalValue(FormatCode(Some(n)).s) == n
  {
    var digits := NatToString(n);
    DecimalOfNatToString(n);
    LeadingZeros(Max(|digits|, 3) - |digits|, digits);
  }

  /** Codes of three or more digits are left as they are; shorter ones are exactly three characters. */
  lemma FormatCodeWidth(n: int)
    requires n >= 1
    ensures n >= 100 ==> FormatCode(Some(n)) == Text(NatToString(n))
    ensures n < 100 ==> |FormatCode(Some(n)).s| == 3
  {
    NatToStringLength(n);
  }

  /** `${code}` in a template literal. */
  function CodeText(code: CodeValue): (text: string)
    ensures code.Undefined? ==> text == "undefined"
    ensures code.Text? ==> text == code.s
    ensures code.Number? && 0 <= code.n ==> AllDigits(text) && DecimalValue(text) == code.n
  {
    match code
    case Undefined => "undefined"
    case Number(n) =>
      if 0 <= n then DecimalOfNatToString(n); IntToString(n) else IntToString(n)
    case Text(s) => s
  }

  /** The fields of a Pokémon record the list and detail shaping read. */
  datatype Pokemon = Pokemon(
    id: Option<int>,
    name: Option<string>,
    types: Option<seq<Option<TypeSlot>>>,
    stats: Option<seq<Option<StatSlot>>>,
    image: Option<string>)

  /** getPokemonImage: the record's own image when truthy, else the catalogue URL built from the code. */
  function PokemonImage(pokemon: Option<Pokemon>, code: CodeValue, prefs: Preferences): (url: string)
    ensures pokemon.Some? && TruthyString(pokemon.value.image) ==> url == pokemon.value.image.value
    ensures !(pokemon.Some? && TruthyString(pokemon.value.image)) ==>
              url == prefs.imageUrlPrefix + CodeText(code) + "." + prefs.imageType
  {
    if pokemon.Some? && TruthyString(pokemon.value.image) then pokemon.value.image.value
    else prefs.imageUrlPrefix + CodeText(code) + "." + prefs.imageType
  }

  /**
   * A Pokémon without its own image gets the URL made of the prefix, a numeral
   * of at least three digits whose value is the Pokémon's id, '.', and the type.
   */
  lemma ImageUrlNamesId(pokemon: Pokemon, prefs: Preferences)
    requires !TruthyString(pokemon.image) && pokemon.id.Some? && pokemon.id.value >= 1
    ensures var code := FormatCode(pokemon.id);
            && code.Text?
            && PokemonImage(Some(pokemon), code, prefs) == prefs.imageUrlPrefix + code.s + "." + prefs.imageType
            && AllDigits(code.s) && |code.s| >= 3 && DecimalValue(code.s) == pokemon.id.value
  {
    FormatCodeRoundTrip(pokemon.id.value);
    NatToStringLength(pokemon.id.value);
  }

  // ---------------------------------------------------------------------
  // Types and stats

  /** An entry of a record's `types`: the name of its `type`, if any. */
  datatype TypeSlot = TypeSlot(typeName: Option<string>)
  datatype TypeView = TypeView(id: Option<string>, name: Option<string>)

  /** mapTypes: every type entry becomes `{id, name}`, both set to the type's name; null entries stay null. */
  function MapTypes(types: Option<seq<Option<TypeSlot>>>): (r: Option<seq<Option<TypeView>>>)
    ensures r.Some? <==> types.Some?
    ensures r.Some? ==> |r.value| == |types.value|
    ensures r.Some? ==> forall i :: 0 <= i < |r.value| ==>
              && (r.value[i].Some? <==> types.value[i].Some?)
              && (r.value[i].Some? ==> r.value[i].value.id == r.value[i].value.name == types.value[i].value.typeName)
  {
    match types
    case None => None
    case Some(ts) =>
      Some(seq(|ts|, i requires 0 <= i < |ts| =>
        match ts[i]
        case None => None
        case Some(slot) => Some(TypeView(slot.typeName, slot.typeName))))
  }

  /** An entry of a record's `stats`: the name of its `stat` and its base value. */
  datatype StatSlot = StatSlot(statName: Option<string>, baseStat: Option<int>)
  datatype StatView = StatView(name: Option<string>, value: Option<int>)

  /** mapStats: every stat entry becomes `{name, value}`; null entries stay null. */
  function MapStats(stats: Option<seq<Option<StatSlot>>>): (r: Option<seq<Option<StatView>>>)
    ensures r.Some? <==> stats.Some?
    ensures r.Some? ==> |r.value| == |stats.value|
    ensures r.Some? ==> forall i :: 0 <= i < |r.value| ==>
              && (r.value[i].Some? <==> stats.value[i].Some?)
              && (r.value[i].Some? ==> r.value[i].value.name == stats.value[i].value.statName
                                       && r.value[i].value.value == stats.value[i].value.baseStat)
  {
    match stats
    case None => None
    case Some(ss) =>
      Some(seq(|ss|, i requires 0 <= i < |ss| =>
        match ss[i]
        case None => None
        case Some(slot) => Some(StatView(slot.statName, slot.baseStat))))
  }

  // ---------------------------------------------------------------------
  // Language selection

  /** An entry of a species' `names`: its language's name and the translated name. */
  datatype Translation = Translation(language: Option<string>, name: Option<string>)

  /** translateName: the name of the first translation in `lang`, or null. */
  function TranslateName(translations: Option<seq<Translation>>, lang: string): (r: Option<string>)
    ensures translations.None? ==> r.None?
    ensures translations.Some? ==>
              var first := FindIndex(translations.value, (t: Translation) => t.language == Some(lang));
              r == if first.Some? then translations.value[first.value].name else None
  {
    match translations
    case None => None
    case Some(ts) =>
      var inLang := Filter(ts, (t: Translation) => t.language == Some(lang));
      FilterHeadIsFind(ts, (t: Translation) => t.language == Some(lang));
      if |inLang| > 0 then inLang[0].name else None
  }

  /** An entry of a species' `flavor_text_entries`. */
  datatype FlavorEntry = FlavorEntry(language: Option<string>, flavorText: Option<string>)

  predicate InLanguage(e: FlavorEntry, lang: string) {
    e.language == Some(lang)
  }

  /** The flavor text of an entry, or the empty string when it has none. */
  function TextOf(e: FlavorEntry): string {
    e.flavorText.GetOr("")
  }

  /**
   * getPokemonDescription: the text of the first entry in `lang`, else of the
   * first entry in English, else the empty string. An entry found in `lang`
   * is used even when it has no text.
   */
  function PokemonDescription(entries: Option<seq<FlavorEntry>>, lang: string): (text: string)
    ensures entries.None? || entries.value == [] ==> text == ""
    ensures entries.Some? ==>
              var es := entries.value;
              var inLang := FindIndex(es, (e: FlavorEntry) => InLanguage(e, lang));
              var inDefault := FindIndex(es, (e: FlavorEntry) => InLanguage(e, DefaultLang));
              && (inLang.Some? ==> text == TextOf(es[inLang.value]))
              && (inLang.None? && inDefault.Some? ==> text == TextOf(es[inDefault.value]))
              && (inLang.None? && inDefault.None? ==> text == "")
  {
    var found :=
      if entries.None? || |entries.value| == 0 then None
      else Find(entries.value, (e: FlavorEntry) => InLanguage(e, lang));
    var entry :=
      if found.Some? then found
      else if entries.None? || |entries.value| == 0 then None
      else Find(entries.value, (e: FlavorEntry) => InLanguage(e, DefaultLang));
    match entry
    case None => ""
    case Some(e) => TextOf(e)
  }

  // ---------------------------------------------------------------------
  // Game configuration

  /** A record's `game_config`. */
  datatype GameConfigInput = GameConfigInput(
    attacks: Option<seq<string>>,
    audio: Option<string>,
    motionPath: Option<string>,
    maxSuccesRate: Option<real>)

  /** The resolved configuration of the capture game. */
  datatype GameConfig = GameConfig(
    attacks: Option<seq<string>>,
    audio: Option<string>,
    motionPath: string,
    maxSuccesRate: real)

  /** The defaults from the bundled default Pokémon data. */
  datatype GameConfigDefaults = GameConfigDefaults(motionPath: string, maxSuccesRate: real)

  /** mapGameConfig: given values when truthy, else the defaults; falsy attacks and audio become null. */
  function MapGameConfig(config: Option<GameConfigInput>, defaults: GameConfigDefaults): (r: GameConfig)
    ensures config.None? ==> r == GameConfig(None, None, defaults.motionPath, defaults.maxSuccesRate)
    ensures config.Some? ==> r.attacks == config.value.attacks
    ensures config.Some? && TruthyString(config.value.audio) ==> r.audio == config.value.audio
    ensures !(config.Some? && TruthyString(config.value.audio)) ==> r.audio.None?
    ensures r.audio.Some? ==> r.audio.value != ""
    ensures r.motionPath == if config.Some? && TruthyString(config.value.motionPath)
                            then config.value.motionPath.value else defaults.motionPath
    ensures r.maxSuccesRate == if config.Some? && config.value.maxSuccesRate.Some? && config.value.maxSuccesRate.value != 0.0
                               then config.value.maxSuccesRate.value else defaults.maxSuccesRate
    ensures defaults.motionPath != "" ==> r.motionPath != ""
    ensures defaults.maxSuccesRate != 0.0 ==> r.maxSuccesRate != 0.0
  {
    match config
    case None => GameConfig(None, None, defaults.motionPath, defaults.maxSuccesRate)
    case Some(c) =>
      GameConfig(
        c.attacks,
        if TruthyString(c.audio) then c.audio else None,
        if TruthyString(c.motionPath) then c.motionPath.value else defaults.motionPath,
        if c.maxSuccesRate.Some? && c.maxSuccesRate.value != 0.0 then c.maxSuccesRate.value else defaults.maxSuccesRate)
  }

  /** Mapping an already mapped configuration again gives it back. */
  lemma MapGameConfigStable(config: Option<GameConfigInput>, defaults: GameConfigDefaults)
    ensures var r := MapGameConfig(config, defaults);
            var again := GameConfigInput(r.attacks, r.audio, Some(r.motionPath), Some(r.maxSuccesRate));
            MapGameConfig(Some(again), defaults) == r
  {
  }

  // ---------------------------------------------------------------------
  // Custom Pokémon and list items

  /** getCustomPokemonByName: the first bundled custom record whose name equals `name`. */
  function CustomPokemonByName(name: Option<string>, customs: seq<Pokemon>): (r: Option<Pokemon>)
    ensures r.Some? ==> r.value in customs && r.value.name == name
    ensures r.None? ==> forall i :: 0 <= i < |customs| ==> customs[i].name != name
    ensures r.Some? ==> exists k :: 0 <= k < |customs| && customs[k] == r.value &&
                                    forall j :: 0 <= j < k ==> customs[j].name != name
  {
    var k := FindIndex(customs, (p: Pokemon) => p.name == name);
    match k
    case None => None
    case Some(i) => Some(customs[i])
  }

  /** A list item as getItem builds it. */
  datatype Item = Item(
    id: Option<string>,
    code: CodeValue,
    name: Option<string>,
    slug: Option<string>,
    types: Option<seq<Option<TypeView>>>,
    image: string,
    evolvesFromId: Option<string>)

  /** getItem once the record is fetched: null for a missing record; the item never has `evolvesFromId`. */
  function ItemOf(id: Option<string>, pokemon: Option<Pokemon>, prefs: Preferences): (item: Option<Item>)
    ensures item.Some? <==> pokemon.Some?
    ensures item.Some? ==> item.value.evolvesFromId.None?
    ensures item.Some? ==> item.value.name == item.value.slug == pokemon.value.name && item.value.id == id
    ensures item.Some? ==> item.value.code == FormatCode(pokemon.value.id)
    ensures item.Some? ==> item.value.types == MapTypes(pokemon.value.types)
    ensures item.Some? ==> item.value.image == PokemonImage(pokemon, item.value.code, prefs)
  {
    match pokemon
    case None => None
    case Some(p) =>
      var code := FormatCode(p.id);
      Some(Item(id, code, p.name, p.name, MapTypes(p.types), PokemonImage(pokemon, code, prefs), None))
  }

  /** Whether the getItems filter keeps an item: present, and without a truthy `evolvesFromId`. */
  predicate Listed(item: Option<Item>) {
    item.Some? && !TruthyString(item.value.evolvesFromId)
  }

  /** The filter at the end of getItems: the listed items, each as often as it occurs, in order. */
  function KeepListed(items: seq<Option<Item>>): (r: seq<Option<Item>>)
    ensures forall i :: 0 <= i < |r| ==> Listed(r[i])
    ensures multiset(r) <= multiset(items)
    ensures forall i :: 0 <= i < |items| ==>
              multiset(r)[items[i]] == if Listed(items[i]) then multiset(items)[items[i]] else 0
    ensures IsSubsequence(r, items)
  {
    FilterCounts(items, Listed);
    FilterIsSubsequence(items, Listed);
    Filter(items, Listed)
  }

  predicate IsPresent(item: Option<Item>) {
    item.Some?
  }

  /** The present items, in order. */
  function Present(items: seq<Option<Item>>): seq<Option<Item>> {
    Filter(items, IsPresent)
  }

  /**
   * The items getItem builds never carry `evolvesFromId`, so on them the
   * getItems filter only drops the null items.
   */
  lemma {:induction false} KeepListedDropsOnlyNulls(items: seq<Option<Item>>)
    requires forall i :: 0 <= i < |items| && items[i].Some? ==> items[i].value.evolvesFromId.None?
    ensures KeepListed(items) == Present(items)
  {
    if items != [] {
      KeepListedDropsOnlyNulls(items[1..]);
      assert Listed(items[0]) == IsPresent(items[0]);
      assert Filter(items, Listed) == (if Listed(items[0]) then [items[0]] else []) + Filter(items[1..], Listed);
      assert Filter(items, IsPresent) == (if IsPresent(items[0]) then [items[0]] else []) + Filter(items[1..], IsPresent);
    }
  }
}
