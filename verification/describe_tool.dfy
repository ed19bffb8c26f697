/** The game-description lookup (app/lib/tools/describe.ts).  The two catalogue
    requests are inputs: `search` is the result list of the name search (`None` when
    the request failed), `details` answers the detail request for an id (`None` when
    it failed or returned no data).  What remains is the choice of the best match and
    the shaping of the returned record. */
module DescribeTool {
  import opened Wrappers
  import opened Strings
  import opened Seqs

  /** One entry of the name-search result list. */
  datatype CatalogGame = CatalogGame(
    id: Option<nat>,
    name: Option<string>,
    playtime: Option<nat>,
    backgroundImage: Option<string>)

  datatype NamedRef = NamedRef(name: Option<string>)
  datatype PlatformRef = PlatformRef(platform: Option<NamedRef>)

  /** The detail record of one game. */
  datatype CatalogDetails = CatalogDetails(
    id: Option<nat>,
    name: Option<string>,
    description: Option<string>,
    playtime: Option<nat>,
    backgroundImage: Option<string>,
    genres: Option<seq<NamedRef>>,
    tags: Option<seq<NamedRef>>,
    platforms: Option<seq<PlatformRef>>)

  /** `GameDescriptionOutput`. */
  datatype DescriptionOutput = DescriptionOutput(
    id: string,
    name: string,
    description: string,
    tags: seq<string>,
    genre: Option<string>,
    playtime: Option<string>,
    imageUrl: Option<string>)

  /** Why the lookup rejects. */
  datatype LookupError = SearchFailed | NoGamesFound | NoSuitableMatch | DetailsUnavailable

  /** A string is truthy when it is present and non-empty. */
  predicate Truthy(s: Option<string>)
  {
    s.Some? && s.value != ""
  }

  /** `a || b` on optional strings. */
  function OrElse(a: Option<string>, b: Option<string>): (r: Option<string>)
    ensures Truthy(a) ==> r == a
    ensures !Truthy(a) ==> r == b
  {
    if Truthy(a) then a else b
  }

  /** `game.name?.toLowerCase() === term.toLowerCase()`. */
  predicate NameEquals(g: CatalogGame, term: string)
  {
    g.name.Some? && ToLower(g.name.value) == ToLower(term)
  }

  /** `game.name?.toLowerCase().startsWith(term.toLowerCase())`. */
  predicate NameStartsWith(g: CatalogGame, term: string)
  {
    g.name.Some? && IsPrefix(ToLower(term), ToLower(g.name.value))
  }

  /** `findBestMatch`: the first case-insensitive exact match, else the first result
      whose name starts with the term, else the first result; `None` only for no results. */
  function FindBestMatch(results: seq<CatalogGame>, term: string): (r: Option<CatalogGame>)
    ensures r.None? <==> |results| == 0
    ensures r.Some? ==> r.value in results
    ensures forall i :: 0 <= i < |results| && NameEquals(results[i], term)
                        && (forall j :: 0 <= j < i ==> !NameEquals(results[j], term))
                        ==> r == Some(results[i])
    ensures (forall j :: 0 <= j < |results| ==> !NameEquals(results[j], term)) ==>
              forall i :: 0 <= i < |results| && NameStartsWith(results[i], term)
                          && (forall j :: 0 <= j < i ==> !NameStartsWith(results[j], term))
                          ==> r == Some(results[i])
    ensures |results| > 0
            && (forall j :: 0 <= j < |results| ==> !NameEquals(results[j], term))
            && (forall j :: 0 <= j < |results| ==> !NameStartsWith(results[j], term))
            ==> r == Some(results[0])
  {
    if |results| == 0 then None
    else
      var exact := Find(results, g => NameEquals(g, term));
      if exact.Some? then exact
      else
        var prefix := Find(results, g => NameStartsWith(g, term));
        if prefix.Some? then prefix else Some(results[0])
  }

  /** An exact match is also a prefix match, so the exact rule only decides between
      several prefix matches. */
  lemma ExactIsPrefix(g: CatalogGame, term: string)
    requires NameEquals(g, term)
    ensures NameStartsWith(g, term)
  {
  }

  function TagName(t: NamedRef): string
  {
    t.name.GetOr("")
  }

  /** `extractTags`: the tag names in order, missing or empty ones dropped. */
  function ExtractTags(d: CatalogDetails): (r: seq<string>)
    ensures d.tags.None? ==> r == []
    ensures forall i :: 0 <= i < |r| ==> r[i] != ""
    ensures d.tags.Some? ==> IsSubsequence(r, MapSeq(d.tags.value, TagName))
    ensures d.tags.Some? ==>
              forall i :: 0 <= i < |d.tags.value| && TagName(d.tags.value[i]) != ""
                          ==> TagName(d.tags.value[i]) in r
    ensures d.tags.Some? ==>
              forall n :: n != "" ==> multiset(r)[n] == multiset(MapSeq(d.tags.value, TagName))[n]
  {
    match d.tags
    case None => []
    case Some(ts) =>
      var names := MapSeq(ts, TagName);
      var r := Filter(names, (n: string) => n != "");
      assert forall n :: n != "" ==> multiset(r)[n] == multiset(names)[n];
      assert forall i :: 0 <= i < |ts| && TagName(ts[i]) != "" ==> names[i] in multiset(names);
      r
  }

  /** `extractGenre`: the first genre's name, else the first platform's name. */
  function ExtractGenre(d: CatalogDetails): (r: Option<string>)
    ensures d.genres.Some? && |d.genres.value| > 0 ==> r == d.genres.value[0].name
    ensures (d.genres.None? || |d.genres.value| == 0) && d.platforms.Some?
            && |d.platforms.value| > 0 && d.platforms.value[0].platform.Some?
            ==> r == d.platforms.value[0].platform.value.name
    ensures r.Some? ==>
              (d.genres.Some? && |d.genres.value| > 0 && r == d.genres.value[0].name) ||
              (d.platforms.Some? && |d.platforms.value| > 0
               && d.platforms.value[0].platform.Some?
               && r == d.platforms.value[0].platform.value.name)
  {
    if d.genres.Some? && |d.genres.value| > 0 then d.genres.value[0].name
    else if d.platforms.Some? && |d.platforms.value| > 0 then
      match d.platforms.value[0].platform
      case None => None
      case Some(p) => p.name
    else None
  }

  predicate IsTagEnd(c: char)
  {
    c == '>'
  }

  /** Removing the matches of `/<[^>]*>/g`: a `<` starts a match only if a `>`
      follows it somewhere, and the match ends at the first such `>`. */
  function StripTags(s: string): (r: string)
    ensures |r| <= |s|
    ensures forall c :: c in r ==> c in s
  {
    if |s| == 0 then []
    else if s[0] == '<' then
      match FirstWhere(s[1..], IsTagEnd)
      case Some(k) => StripTags(s[k + 2..])
      case None => [s[0]] + StripTags(s[1..])
    else [s[0]] + StripTags(s[1..])
  }

  /** No `<` in `s` is followed, later, by a `>`: nothing tag-like is left. */
  predicate NoTags(s: string)
  {
    forall i, j :: 0 <= i < j < |s| && s[i] == '<' ==> s[j] != '>'
  }

  /** After stripping, no `<` has a `>` after it. */
  lemma {:induction false} StripTagsLeavesNoTags(s: string)
    ensures NoTags(StripTags(s))
    decreases |s|
  {
    var r := StripTags(s);
    if |s| > 0 {
      if s[0] == '<' {
        match FirstWhere(s[1..], IsTagEnd)
        case Some(k) =>
          StripTagsLeavesNoTags(s[k + 2..]);
        case None =>
          StripTagsLeavesNoTags(s[1..]);
          var rest := StripTags(s[1..]);
          assert r == [s[0]] + rest;
          forall j | 0 < j < |r| ensures r[j] != '>' {
            assert r[j] == rest[j - 1];
            assert rest[j - 1] in rest;
            assert '>' !in s[1..];
          }
      } else {
        StripTagsLeavesNoTags(s[1..]);
        var rest := StripTags(s[1..]);
        assert r == [s[0]] + rest;
        forall i, j | 0 <= i < j < |r| && r[i] == '<' ensures r[j] != '>' {
          assert r[i] == rest[i - 1];
          assert r[j] == rest[j - 1];
        }
      }
    }
  }

  /** A contiguous piece of a string without tags has none either. */
  lemma NoTagsSlice(s: string, a: nat, b: nat)
    requires a <= b <= |s|
    requires NoTags(s)
    ensures NoTags(s[a..b])
  {
    var t := s[a..b];
    forall i, j | 0 <= i < j < |t| && t[i] == '<' ensures t[j] != '>' {
      assert t[i] == s[a + i] && t[j] == s[a + j];
    }
  }

  /** Without a `>` nothing can close a tag, so the text comes through whole. */
  lemma {:induction false} StripTagsNoClose(s: string)
    requires '>' !in s
    ensures StripTags(s) == s
    decreases |s|
  {
    if |s| > 0 {
      assert '>' !in s[1..];
      if s[0] == '<' {
        assert FirstWhere(s[1..], IsTagEnd).None?;
      }
      StripTagsNoClose(s[1..]);
    }
  }

  /** Without a `<` nothing can open a tag, so the text comes through whole. */
  lemma {:induction false} StripTagsNoOpen(s: string)
    requires '<' !in s
    ensures StripTags(s) == s
    decreases |s|
  {
    if |s| > 0 {
      assert '<' !in s[1..];
      StripTagsNoOpen(s[1..]);
    }
  }

  /** The first `>` after a `>`-free prefix is the one right after it. */
  lemma FirstTagEnd(t: string, rest: string)
    requires '>' !in t
    ensures FirstWhere(t + ['>'] + rest, IsTagEnd) == Some(|t|)
  {
    var xs := t + ['>'] + rest;
    assert xs[|t|] == '>';
    assert forall i :: 0 <= i < |t| ==> xs[i] == t[i];
  }

  /** A tag at the front is removed whole. */
  lemma StripTagsTag(t: string, rest: string)
    requires '>' !in t
    ensures StripTags(['<'] + (t + ['>'] + rest)) == StripTags(rest)
  {
    var xs := t + ['>'] + rest;
    var s := ['<'] + xs;
    assert s[0] == '<';
    assert s[1..] == xs;
    FirstTagEnd(t, rest);
    assert s[|t| + 2..] == rest;
  }

  /** Text without `<` in front is kept as it is. */
  lemma {:induction false} StripTagsPrefix(p: string, s: string)
    requires '<' !in p
    ensures StripTags(p + s) == p + StripTags(s)
    decreases |p|
  {
    if |p| == 0 {
      assert p + s == s;
    } else {
      var q := p[1..];
      var x := StripTags(s);
      assert p + s == [p[0]] + (q + s);
      StripTagsCons(p[0], q + s);
      StripTagsPrefix(q, s);
      assert [p[0]] + (q + x) == p + x;
    }
  }

  /** The text before a tag is kept, the tag itself is removed, and stripping goes on
      after the tag's `>`. */
  lemma StripTagsSplit(p: string, t: string, rest: string)
    requires '<' !in p && '>' !in t
    ensures StripTags(p + (['<'] + (t + ['>'] + rest))) == p + StripTags(rest)
  {
    StripTagsPrefix(p, ['<'] + (t + ['>'] + rest));
    StripTagsTag(t, rest);
  }

  /** A character other than `<` is kept. */
  lemma StripTagsCons(c: char, s: string)
    requires c != '<'
    ensures StripTags([c] + s) == [c] + StripTags(s)
  {
    assert ([c] + s)[0] == c;
    assert ([c] + s)[1..] == s;
  }

  /** Trimming cuts a contiguous piece, so it adds no tags. */
  lemma TrimNoTags(s: string)
    requires NoTags(s)
    ensures NoTags(Trim(s))
  {
    var a, b :| 0 <= a <= b <= |s| && Trim(s) == s[a..b];
    NoTagsSlice(s, a, b);
  }

  /** The text used when the catalogue has no description. */
  const NoDescription: string := "No description available."

  lemma NoDescriptionHasNoTags()
    ensures NoTags(NoDescription)
  {
    assert '<' !in NoDescription;
  }

  /** The description shaping: tags stripped and the result trimmed; a missing or
      empty description becomes `'No description available.'`. */
  function CleanDescription(description: Option<string>): (r: string)
    ensures !Truthy(description) ==> r == NoDescription
    ensures NoTags(r)
    ensures Truthy(description) && |r| > 0 ==> !IsSpace(r[0]) && !IsSpace(r[|r| - 1])
    ensures Truthy(description) && '<' !in description.value
            && !IsSpace(description.value[0]) && !IsSpace(description.value[|description.value| - 1])
            ==> r == description.value
  {
    if Truthy(description) then
      var v := description.value;
      StripTagsLeavesNoTags(v);
      TrimNoTags(StripTags(v));
      if '<' !in v && !IsSpace(v[0]) && !IsSpace(v[|v| - 1]) then
        StripTagsNoOpen(v);
        TrimKeepsTrimmed(v);
        Trim(StripTags(v))
      else Trim(StripTags(v))
    else
      NoDescriptionHasNoTags();
      NoDescription
  }

  /** A description is reduced to its tag-stripped text with white space dropped from
      the ends and nothing else: the result is a piece of the stripped text, and only
      white space lies around it. */
  lemma CleanDescriptionKeepsText(description: Option<string>)
    requires Truthy(description)
    ensures var stripped := StripTags(description.value);
            exists a, b :: 0 <= a <= b <= |stripped|
                           && CleanDescription(description) == stripped[a..b]
                           && (forall i :: 0 <= i < a ==> IsSpace(stripped[i]))
                           && (forall i :: b <= i < |stripped| ==> IsSpace(stripped[i]))
  {
    CleanDescriptionIsTrim(description);
    TrimDropsOnlySpace(StripTags(description.value));
  }

  lemma CleanDescriptionIsTrim(description: Option<string>)
    requires Truthy(description)
    ensures CleanDescription(description) == Trim(StripTags(description.value))
  {
  }

  /** A typical catalogue description, one paragraph of plain text: the paragraph
      tags go and the text stays as it is. */
  lemma CleanParagraph(text: string)
    requires '<' !in text
    requires |text| == 0 || (!IsSpace(text[0]) && !IsSpace(text[|text| - 1]))
    ensures CleanDescription(Some("<p>" + text + "</p>")) == text
  {
    var html := "<p>" + text + "</p>";
    var rest := text + (['<'] + ("/p" + ['>'] + []));
    assert html == [] + (['<'] + ("p" + ['>'] + rest));
    StripTagsSplit([], "p", rest);
    StripTagsSplit(text, "/p", []);
    assert StripTags(html) == text;
    CleanDescriptionIsTrim(Some(html));
    TrimKeepsTrimmed(text);
  }

  /** `gameData.playtime || bestMatch.playtime`, then `` `${h} hours` `` when truthy. */
  function PlaytimeText(details: Option<nat>, listed: Option<nat>): (r: Option<string>)
    ensures r.Some? <==> (details.Some? && details.value != 0) || (listed.Some? && listed.value != 0)
    ensures details.Some? && details.value != 0 ==> r == Some(NatToString(details.value) + " hours")
    ensures (details.None? || details.value == 0) && listed.Some? && listed.value != 0
            ==> r == Some(NatToString(listed.value) + " hours")
  {
    var hours := if details.Some? && details.value != 0 then details else listed;
    if hours.Some? && hours.value != 0 then Some(NatToString(hours.value) + " hours") else None
  }

  /** The record built from the chosen search entry and its detail record. */
  function ShapeOutput(query: string, best: CatalogGame, d: CatalogDetails): (out: DescriptionOutput)
    requires best.id.Some?
    ensures out.id == NatToString(if d.id.Some? then d.id.value else best.id.value)
    ensures out.id != ""
    ensures NoTags(out.description)
    ensures out.name == if Truthy(d.name) then d.name.value
                        else if Truthy(best.name) then best.name.value else query
    ensures forall i :: 0 <= i < |out.tags| ==> out.tags[i] != ""
    ensures out.description == CleanDescription(d.description)
    ensures out.tags == ExtractTags(d)
    ensures out.genre == ExtractGenre(d)
    ensures out.playtime == PlaytimeText(d.playtime, best.playtime)
    ensures out.imageUrl == OrElse(d.backgroundImage, best.backgroundImage)
  {
    var idNumber := if d.id.Some? then d.id.value else best.id.value;
    var nameOpt := OrElse(d.name, best.name);
    var name := if Truthy(nameOpt) then nameOpt.value else query;
    DescriptionOutput(
      NatToString(idNumber), name, CleanDescription(d.description),
      ExtractTags(d), ExtractGenre(d),
      PlaytimeText(d.playtime, best.playtime),
      OrElse(d.backgroundImage, best.backgroundImage))
  }

  /** The whole lookup for one query: it rejects when the search fails or finds
      nothing, when the best match has no usable id, or when the detail request fails. */
  function DescribeLookup(
    query: string,
    search: Option<seq<CatalogGame>>,
    details: nat -> Option<CatalogDetails>): (r: Result<DescriptionOutput, LookupError>)
    ensures search.None? ==> r == Err(SearchFailed)
    ensures search == Some([]) ==> r == Err(NoGamesFound)
    ensures search.Some? && |search.value| > 0 ==>
              var best := FindBestMatch(search.value, query).value;
              if best.id.None? || best.id.value == 0 then r == Err(NoSuitableMatch)
              else if details(best.id.value).None? then r == Err(DetailsUnavailable)
              else r == Ok(ShapeOutput(query, best, details(best.id.value).value))
  {
    match search
    case None => Err(SearchFailed)
    case Some(games) =>
      if |games| == 0 then Err(NoGamesFound)
      else
        var best := FindBestMatch(games, query).value;
        if best.id.None? || best.id.value == 0 then Err(NoSuitableMatch)
        else
          match details(best.id.value)
          case None => Err(DetailsUnavailable)
          case Some(d) => Ok(ShapeOutput(query, best, d))
  }
}
