/**
 * The news endpoint: each RSS feed's `<item>` blocks turned into at most
 * twenty news items, then all feeds merged, de-duplicated by title, newest
 * first and capped at twenty-five.  The regular expressions that cut the
 * XML into blocks and fields are not modelled: each block arrives with its
 * tag contents already extracted, `None` where the tag is absent.
 */
module News {
  import opened Wrappers
  import opened Text
  import opened Sorting
  import opened Chunking

  const MAX_ITEMS := 20
  const MAX_MERGED := 25
  const SNIPPET := 160
  /** Every feed is parsed with this default source label. */
  const DEFAULT_SOURCE := "Google News"

  /** The tag contents of one `<item>` block. */
  datatype RssBlock = RssBlock(
    cdataTitle: Option<string>,       // <title><![CDATA[…]]></title>
    title: Option<string>,            // <title>…</title>
    link: Option<string>,
    guid: Option<string>,
    pubDate: Option<string>,
    cdataDescription: Option<string>,
    description: Option<string>,
    sourceName: Option<string>)       // <source …>…</source>

  /** `publishedAt` is kept as the timestamp its ISO string denotes; `index` is the `idx` of the id. */
  datatype NewsItem = NewsItem(index: nat, title: string, source: string, url: string,
                               publishedAt: int, snippet: string)

  /** The CDATA title when present, else the plain one, trimmed. */
  function TitleOf(b: RssBlock): string {
    Trim(if b.cdataTitle.Some? then b.cdataTitle.value else b.title.GetOr(""))
  }

  /** `rawLink || guid`: an empty `<link>` falls back to `<guid>`. */
  function LinkOf(b: RssBlock): (link: string)
    ensures link == Trim(b.link.GetOr("")) || (Trim(b.link.GetOr("")) == "" && link == Trim(b.guid.GetOr("")))
  {
    var raw := Trim(b.link.GetOr(""));
    if raw != "" then raw else Trim(b.guid.GetOr(""))
  }

  /** A `<source>` tag, even an empty one, replaces the default label. */
  function SourceOf(b: RssBlock, source: string): string {
    if b.sourceName.Some? then Trim(b.sourceName.value) else source
  }

  /** No `<` opens a tag: it is followed by `>` or no `>` comes after it. */
  ghost predicate NoTag(s: string) {
    forall i :: 0 <= i < |s| && s[i] == '<' ==> (i + 1 < |s| && s[i + 1] == '>') || '>' !in s[i + 1..]
  }

  /** `s.replace(/<[^>]+>/g, '')`: each `<`, at least one other character and the next `>` removed. */
  function StripTags(s: string): (r: string)
    ensures |r| <= |s|
    ensures s != [] && s[0] != '<' ==> r != [] && r[0] == s[0]
    ensures '>' !in s ==> '>' !in r
    ensures '<' !in s ==> r == s
    decreases |s|
  {
    if s == [] then []
    else
      var k := IndexOf(s[1..], '>');
      if s[0] == '<' && 0 < k < |s| - 1 then StripTags(s[k + 2..])
      else [s[0]] + StripTags(s[1..])
  }

  /** What is left opens no tag. */
  lemma {:induction false} StripTagsNoTag(s: string)
    ensures NoTag(StripTags(s))
    decreases |s|
  {
    if s != [] {
      var k := IndexOf(s[1..], '>');
      if s[0] == '<' && 0 < k < |s| - 1 {
        StripTagsNoTag(s[k + 2..]);
      } else {
        var rest := StripTags(s[1..]);
        StripTagsNoTag(s[1..]);
        var r := StripTags(s);
        assert r == [s[0]] + rest;
        forall i | 0 <= i < |r| && r[i] == '<'
          ensures (i + 1 < |r| && r[i + 1] == '>') || '>' !in r[i + 1..]
        {
          if i == 0 {
            if k < |s| - 1 {
              assert k == 0 && s[1..][0] == '>';
              assert rest[0] == '>';
            } else {
              assert '>' !in s[1..];
              assert r[1..] == rest;
            }
          } else {
            assert r[i] == rest[i - 1];
            assert r[i + 1..] == rest[i..];
          }
        }
      }
    }
  }

  /** Title entities unescaped in this order: `&amp;`, then `&#39;`, then `&quot;`. */
  function Unescape(t: string): (r: string)
    ensures t != [] ==> r != []
  {
    ReplaceAll(ReplaceAll(ReplaceAll(t, "&amp;", "&"), "&#39;", "'"), "&quot;", "\"")
  }

  /** `&amp;` goes first, so an escaped entity is unescaped twice. */
  lemma AmpFirst()
    ensures Unescape("&amp;quot;") == "\""
  {
    AmpStep();
    AposStep();
    QuotStep();
  }

  /** The first replacement turns `&amp;quot;` into `&quot;`. */
  lemma AmpStep()
    ensures ReplaceAll("&amp;quot;", "&amp;", "&") == "&quot;"
  {
    assert "&amp;" <= "&amp;quot;";
    assert "&amp;quot;"[5..] == "quot;";
    QuotTailKept();
  }

  lemma QuotTailKept()
    ensures ReplaceAll("quot;", "&amp;", "&") == "quot;"
  {
    assert !("&amp;" <= "quot;");
    assert !("&amp;" <= "uot;");
    assert !("&amp;" <= "ot;");
    assert !("&amp;" <= "t;");
    assert !("&amp;" <= ";");
    assert "quot;"[1..] == "uot;";
    assert "uot;"[1..] == "ot;";
    assert "ot;"[1..] == "t;";
    assert "t;"[1..] == ";";
    assert ";"[1..] == "";
  }

  /** The second replacement leaves `&quot;` alone. */
  lemma AposStep()
    ensures ReplaceAll("&quot;", "&#39;", "'") == "&quot;"
  {
    assert !Contains("&quot;", "&#39;") by {
      assert "&quot;"[1] != "&#39;"[1];
      assert "&quot;"[1..] == "quot;";
      assert "quot;"[0] != '&';
      assert !Contains("uot;", "&#39;") by {
        assert "uot;"[1..] == "ot;" && "ot;"[1..] == "t;" && "t;"[1..] == ";" && ";"[1..] == "";
      }
    }
    ReplaceAllAbsent("&quot;", "&#39;", "'");
  }

  /** The third replacement turns `&quot;` into a double quote. */
  lemma QuotStep()
    ensures ReplaceAll("&quot;", "&quot;", "\"") == "\""
  {
    assert "&quot;"[6..] == "";
  }

  /** The description with tags removed, cut to 160 characters. */
  function SnippetOf(b: RssBlock): (snippet: string)
    ensures |snippet| <= SNIPPET && NoTag(snippet)
  {
    var desc := Trim(if b.cdataDescription.Some? then b.cdataDescription.value else b.description.GetOr(""));
    var full := StripTags(desc);
    StripTagsNoTag(desc);
    var r := SliceTo(full, SNIPPET);
    NoTagPrefix(full, r);
    r
  }

  /** A prefix of a text that opens no tag opens none either. */
  lemma NoTagPrefix(full: string, r: string)
    requires NoTag(full) && r <= full
    ensures NoTag(r)
  {
    forall i | 0 <= i < |r| && r[i] == '<'
      ensures (i + 1 < |r| && r[i + 1] == '>') || '>' !in r[i + 1..]
    {
      assert full[i] == '<';
      if i + 1 == |r| {
        assert r[i + 1..] == [];
      } else if r[i + 1] != '>' {
        assert full[i + 1] == r[i + 1];
        assert '>' !in full[i + 1..];
        assert r[i + 1..] <= full[i + 1..];
      }
    }
  }

  /** What one block does: skipped, an item, or a throw on a date `Date` cannot read. */
  datatype Step = Skip | Throw | Emit(item: NewsItem)

  /** One pass of the loop body; `parseDate` is `new Date(s)`, `None` for an invalid date. */
  function ItemOf(b: RssBlock, source: string, parseDate: string -> Option<int>, now: int, index: nat): Step
  {
    var title := TitleOf(b);
    var link := LinkOf(b);
    var pubDate := Trim(b.pubDate.GetOr(""));
    if title == "" || link == "" then Skip
    else if pubDate != "" && parseDate(pubDate).None? then Throw
    else
      var at := if pubDate == "" then now else parseDate(pubDate).value;
      Emit(NewsItem(index, Unescape(title), SourceOf(b, source), link, at, SnippetOf(b)))
  }

  /** A block is skipped without a title or a link, throws on an unreadable date, and otherwise gives its item. */
  lemma ItemOfMeaning(b: RssBlock, source: string, parseDate: string -> Option<int>, now: int, index: nat)
    ensures var st := ItemOf(b, source, parseDate, now, index);
            && (st.Skip? <==> TitleOf(b) == "" || LinkOf(b) == "")
            && (st.Throw? <==> TitleOf(b) != "" && LinkOf(b) != "" && Trim(b.pubDate.GetOr("")) != ""
                               && parseDate(Trim(b.pubDate.GetOr(""))).None?)
            && (st.Emit? ==>
                  && st.item.index == index && st.item.title != "" && st.item.url == LinkOf(b) && st.item.url != ""
                  && st.item.source == SourceOf(b, source)
                  && |st.item.snippet| <= SNIPPET && NoTag(st.item.snippet)
                  && st.item.publishedAt == (if Trim(b.pubDate.GetOr("")) == "" then now
                                             else parseDate(Trim(b.pubDate.GetOr(""))).value))
  {
  }

  /** The loop's state: the items so far, or the exception that ended the parse. */
  datatype Parse = Parse(items: seq<NewsItem>) | Threw

  /** The loop stops after a throw or once twenty items are held. */
  predicate Halted(st: Parse) {
    st.Threw? || |st.items| >= MAX_ITEMS
  }

  /** The loop body as a function of the block and the number of items held. */
  type Stepper = (RssBlock, nat) -> Step

  function ItemStep(source: string, parseDate: string -> Option<int>, now: int): Stepper {
    (b: RssBlock, n: nat) => ItemOf(b, source, parseDate, now, n)
  }

  function Advance(st: Parse, b: RssBlock, step: Stepper): Parse {
    if Halted(st) then st
    else
      match step(b, |st.items|)
      case Skip => st
      case Throw => Threw
      case Emit(item) => Parse(st.items + [item])
  }

  /** The loop run over the blocks, one `Advance` per block. */
  function Run(blocks: seq<RssBlock>, step: Stepper): Parse {
    if blocks == [] then Parse([])
    else Advance(Run(blocks[..|blocks| - 1], step), blocks[|blocks| - 1], step)
  }

  /** `parseRssItems`, block by block. */
  function ParseItems(blocks: seq<RssBlock>, source: string, parseDate: string -> Option<int>, now: int): Parse {
    Run(blocks, ItemStep(source, parseDate, now))
  }

  lemma RunSnoc(blocks: seq<RssBlock>, step: Stepper, i: nat)
    requires i < |blocks|
    ensures Run(blocks[..i + 1], step) == Advance(Run(blocks[..i], step), blocks[i], step)
  {
    assert blocks[..i + 1][..i] == blocks[..i];
  }

  /** Under a step that numbers its items, the run holds at most twenty, numbered in order. */
  lemma {:induction false} RunShape(blocks: seq<RssBlock>, step: Stepper)
    requires forall b, n :: step(b, n).Emit? ==> step(b, n).item.index == n
    ensures var st := Run(blocks, step);
            st.Parse? ==> |st.items| <= MAX_ITEMS && forall i :: 0 <= i < |st.items| ==> st.items[i].index == i
  {
    if blocks != [] {
      RunShape(blocks[..|blocks| - 1], step);
    }
  }

  /** Every item of a run comes from a block, at the position it was pushed. */
  lemma {:induction false} RunFromBlocks(blocks: seq<RssBlock>, step: Stepper)
    ensures var st := Run(blocks, step);
            st.Parse? ==> forall i :: 0 <= i < |st.items| ==>
              exists j :: 0 <= j < |blocks| && step(blocks[j], i) == Emit(st.items[i])
  {
    if blocks != [] {
      var front := blocks[..|blocks| - 1];
      RunFromBlocks(front, step);
      var st0 := Run(front, step);
      var last := blocks[|blocks| - 1];
      var st := Run(blocks, step);
      if st.Parse? {
        forall i | 0 <= i < |st.items|
          ensures exists j :: 0 <= j < |blocks| && step(blocks[j], i) == Emit(st.items[i])
        {
          if i < |st0.items| {
            var j :| 0 <= j < |front| && step(front[j], i) == Emit(st0.items[i]);
            assert blocks[j] == front[j];
          } else {
            assert step(blocks[|blocks| - 1], i) == Emit(st.items[i]);
          }
        }
      }
    }
  }

  /** Once the loop has stopped, the remaining blocks change nothing. */
  lemma {:induction false} HaltedStays(blocks: seq<RssBlock>, step: Stepper, i: nat)
    requires i <= |blocks| && Halted(Run(blocks[..i], step))
    ensures Run(blocks, step) == Run(blocks[..i], step)
    decreases |blocks|
  {
    if i < |blocks| {
      var front := blocks[..|blocks| - 1];
      assert front[..i] == blocks[..i];
      HaltedStays(front, step, i);
    } else {
      assert blocks[..i] == blocks;
    }
  }

  /** At most twenty items, numbered in order, each with a title, a link and a short snippet, each from a block. */
  lemma ParseItemsShape(blocks: seq<RssBlock>, source: string, parseDate: string -> Option<int>, now: int)
    ensures var st := ParseItems(blocks, source, parseDate, now);
            st.Parse? ==>
              && |st.items| <= MAX_ITEMS
              && forall i :: 0 <= i < |st.items| ==>
                   && st.items[i].index == i && st.items[i].title != "" && st.items[i].url != ""
                   && |st.items[i].snippet| <= SNIPPET && NoTag(st.items[i].snippet)
                   && exists j :: 0 <= j < |blocks| && ItemOf(blocks[j], source, parseDate, now, i) == Emit(st.items[i])
  {
    var step := ItemStep(source, parseDate, now);
    forall b, n ensures step(b, n).Emit? ==> step(b, n).item.index == n {
      ItemOfMeaning(b, source, parseDate, now, n);
    }
    RunShape(blocks, step);
    RunFromBlocks(blocks, step);
    var st := Run(blocks, step);
    if st.Parse? {
      forall i | 0 <= i < |st.items|
        ensures st.items[i].title != "" && st.items[i].url != "" && |st.items[i].snippet| <= SNIPPET && NoTag(st.items[i].snippet)
      {
        var j :| 0 <= j < |blocks| && step(blocks[j], i) == Emit(st.items[i]);
        ItemOfMeaning(blocks[j], source, parseDate, now, i);
      }
    }
  }

  /** The fields of one block read as the loop body does: `continue` on a missing title or link, a throw on a bad date. */
  method ReadBlock(b: RssBlock, source: string, parseDate: string -> Option<int>, now: int, index: nat)
    returns (st: Step)
    ensures st == ItemOf(b, source, parseDate, now, index)
  {
    var title := TitleOf(b);
    var link := LinkOf(b);
    var pubDate := Trim(b.pubDate.GetOr(""));
    if title == "" || link == "" {
      return Skip;
    }
    var at := now;
    if pubDate != "" {
      var parsed := parseDate(pubDate);
      if parsed.None? {
        return Throw;
      }
      at := parsed.value;
    }
    return Emit(NewsItem(index, Unescape(title), SourceOf(b, source), link, at, SnippetOf(b)));
  }

  /** The `while ((match = itemRegex.exec(xml)) !== null && items.length < 20)` loop. */
  method ParseRssItems(blocks: seq<RssBlock>, source: string, parseDate: string -> Option<int>, now: int)
    returns (r: Parse)
    ensures r == ParseItems(blocks, source, parseDate, now)
  {
    ghost var step := ItemStep(source, parseDate, now);
    var items: seq<NewsItem> := [];
    var i := 0;
    while i < |blocks| && |items| < MAX_ITEMS
      invariant i <= |blocks|
      invariant Run(blocks[..i], step) == Parse(items)
    {
      RunSnoc(blocks, step, i);
      var next := ReadBlock(blocks[i], source, parseDate, now, |items|);
      i := i + 1;
      match next
      case Skip =>
      case Throw =>
        HaltedStays(blocks, step, i);
        return Threw;
      case Emit(item) =>
        items := items + [item];
    }
    if i < |blocks| {
      HaltedStays(blocks, step, i);
    } else {
      assert blocks[..i] == blocks;
    }
    return Parse(items);
  }

  /** One feed request: it threw, answered non-OK, or returned XML already cut into blocks. */
  datatype FeedReply = FeedThrew | FeedNotOk | FeedXml(blocks: seq<RssBlock>)

  /** A feed that fails, answers non-OK or whose parse throws contributes no items. */
  function FeedItems(reply: FeedReply, parseDate: string -> Option<int>, now: int): seq<NewsItem> {
    match reply
    case FeedXml(blocks) =>
      (match ParseItems(blocks, DEFAULT_SOURCE, parseDate, now)
       case Parse(items) => items
       case Threw => [])
    case _ => []
  }

  /** The settled result of each feed, in feed order. */
  function FeedParts(replies: seq<FeedReply>, parseDate: string -> Option<int>, now: int): (parts: seq<seq<NewsItem>>)
    ensures |parts| == |replies|
    ensures forall i :: 0 <= i < |replies| ==> parts[i] == FeedItems(replies[i], parseDate, now)
  {
    seq(|replies|, i requires 0 <= i < |replies| => FeedItems(replies[i], parseDate, now))
  }

  /** The results flattened, feed by feed. */
  function AllItems(replies: seq<FeedReply>, parseDate: string -> Option<int>, now: int): seq<NewsItem> {
    Flatten(FeedParts(replies, parseDate, now))
  }

  /** An item is merged exactly when some feed produced it. */
  lemma AllItemsMember(replies: seq<FeedReply>, parseDate: string -> Option<int>, now: int, x: NewsItem)
    ensures x in AllItems(replies, parseDate, now) <==> exists i :: 0 <= i < |replies| && x in FeedItems(replies[i], parseDate, now)
  {
    var parts := FeedParts(replies, parseDate, now);
    FlattenMember(parts, x);
    if x in AllItems(replies, parseDate, now) {
      var i :| 0 <= i < |parts| && x in parts[i];
      assert x in FeedItems(replies[i], parseDate, now);
    }
  }

  function Title(x: NewsItem): string { x.title }

  /** Some item of `xs` has title `t`. */
  predicate TitleSeen(xs: seq<NewsItem>, t: string) {
    exists j :: 0 <= j < |xs| && xs[j].title == t
  }

  /** The first item of each title, in order (the `findIndex(…) === idx` filter). */
  function FirstByTitle(xs: seq<NewsItem>): (r: seq<NewsItem>)
    ensures forall y :: y in r ==> y in xs
  {
    if xs == [] then []
    else
      var front := xs[..|xs| - 1];
      var last := xs[|xs| - 1];
      var d := FirstByTitle(front);
      assert forall y :: y in front ==> y in xs;
      if TitleSeen(front, last.title) then d else d + [last]
  }

  /** No two kept items share a title, and every title is kept. */
  lemma {:induction false} FirstByTitleUnique(xs: seq<NewsItem>)
    ensures UniqueKeys(FirstByTitle(xs), Title)
    ensures forall x :: x in xs ==> TitleSeen(FirstByTitle(xs), x.title)
  {
    if xs != [] {
      var front := xs[..|xs| - 1];
      var last := xs[|xs| - 1];
      FirstByTitleUnique(front);
      var d := FirstByTitle(front);
      assert forall x :: x in xs ==> x in front || x == last;
      if !TitleSeen(front, last.title) {
        forall y | y in d ensures y.title != last.title {
          assert y in front;
        }
        var r := d + [last];
        assert FirstByTitle(xs) == r;
        forall x | x in xs ensures TitleSeen(r, x.title) {
          if x == last {
            assert r[|d|] == last;
          } else {
            assert x in front;
            var j :| 0 <= j < |d| && d[j].title == x.title;
            assert r[j] == d[j];
          }
        }
      } else {
        forall x | x in xs ensures TitleSeen(d, x.title) {
          if x == last {
            var j :| 0 <= j < |front| && front[j].title == last.title;
            assert front[j] in front;
          } else {
            assert x in front;
          }
        }
      }
    }
  }

  /** Each kept item is the first of its title. */
  lemma {:induction false} FirstByTitleFirst(xs: seq<NewsItem>)
    ensures forall k :: 0 <= k < |FirstByTitle(xs)| ==>
              exists i :: 0 <= i < |xs| && xs[i] == FirstByTitle(xs)[k]
                          && forall j :: 0 <= j < i ==> xs[j].title != xs[i].title
  {
    if xs != [] {
      var front := xs[..|xs| - 1];
      FirstByTitleFirst(front);
      assert forall j :: 0 <= j < |front| ==> front[j] == xs[j];
      var last := xs[|xs| - 1];
      var d := FirstByTitle(front);
      if !TitleSeen(front, last.title) {
        var r := d + [last];
        assert FirstByTitle(xs) == r;
        forall k | 0 <= k < |r|
          ensures exists i :: 0 <= i < |xs| && xs[i] == r[k] && forall j :: 0 <= j < i ==> xs[j].title != xs[i].title
        {
          if k == |d| {
            var i := |xs| - 1;
            assert xs[i] == r[k];
            forall j | 0 <= j < i ensures xs[j].title != xs[i].title {
              assert front[j] == xs[j];
            }
          } else {
            assert r[k] == d[k];
            var i :| 0 <= i < |front| && front[i] == d[k] && forall j :: 0 <= j < i ==> front[j].title != front[i].title;
            assert xs[i] == r[k];
          }
        }
      } else {
        assert FirstByTitle(xs) == d;
        forall k | 0 <= k < |d|
          ensures exists i :: 0 <= i < |xs| && xs[i] == d[k] && forall j :: 0 <= j < i ==> xs[j].title != xs[i].title
        {
          var i :| 0 <= i < |front| && front[i] == d[k] && forall j :: 0 <= j < i ==> front[j].title != front[i].title;
          assert xs[i] == d[k];
        }
      }
    } else {
      assert FirstByTitle(xs) == [];
    }
  }

  function PublishedKey(x: NewsItem): real { x.publishedAt as real }

  /** The newest twenty-five of a list of distinct titles are still distinct, newest first. */
  lemma NewestDistinct(unique: seq<NewsItem>, r: seq<NewsItem>)
    requires UniqueKeys(unique, Title)
    requires r == SliceTo(Sort(unique, Desc(PublishedKey)), MAX_MERGED)
    ensures |r| <= MAX_MERGED
    ensures DescendingBy(r, PublishedKey)
    ensures UniqueKeys(r, Title)
    ensures forall y :: y in r ==> y in unique
  {
    var ranked := Sort(unique, Desc(PublishedKey));
    SortedDesc(unique, PublishedKey);
    UniqueKeysPermuted(unique, ranked, Title);
    DescendingPrefix(ranked, PublishedKey, MAX_MERGED);
    assert forall i :: 0 <= i < |r| ==> r[i] == ranked[i];
    assert forall y :: y in r ==> y in multiset(unique);
  }

  /** The merged response: the first item of each title, newest first, the newest twenty-five of them. */
  function Get(replies: seq<FeedReply>, parseDate: string -> Option<int>, now: int): (r: seq<NewsItem>)
    ensures |r| <= MAX_MERGED
    ensures DescendingBy(r, PublishedKey)
    ensures UniqueKeys(r, Title)
    ensures forall y :: y in r ==> y in FirstByTitle(AllItems(replies, parseDate, now))
    ensures |r| == Min(|FirstByTitle(AllItems(replies, parseDate, now))|, MAX_MERGED)
    ensures multiset(r) <= multiset(FirstByTitle(AllItems(replies, parseDate, now)))
    ensures forall x, y :: x in r && y in multiset(FirstByTitle(AllItems(replies, parseDate, now))) - multiset(r) ==>
              PublishedKey(x) >= PublishedKey(y)
  {
    var unique := FirstByTitle(AllItems(replies, parseDate, now));
    FirstByTitleUnique(AllItems(replies, parseDate, now));
    var r := SliceTo(Sort(unique, Desc(PublishedKey)), MAX_MERGED);
    NewestDistinct(unique, r);
    TopByKey(unique, PublishedKey, MAX_MERGED);
    r
  }

  /** With at most twenty-five distinct titles, every one of them is shown. */
  lemma FewItemsAllShown(replies: seq<FeedReply>, parseDate: string -> Option<int>, now: int)
    requires |FirstByTitle(AllItems(replies, parseDate, now))| <= MAX_MERGED
    ensures multiset(Get(replies, parseDate, now)) == multiset(FirstByTitle(AllItems(replies, parseDate, now)))
  {
    var unique := FirstByTitle(AllItems(replies, parseDate, now));
    var ranked := Sort(unique, Desc(PublishedKey));
    assert SliceTo(ranked, MAX_MERGED) == ranked;
  }

  /**
   * A feed's items reach the de-duplicated merge whatever the other feeds
   * did, and the answer itself when there are at most twenty-five titles.
   */
  lemma FeedKept(replies: seq<FeedReply>, parseDate: string -> Option<int>, now: int, i: nat, x: NewsItem)
    requires i < |replies| && x in FeedItems(replies[i], parseDate, now)
    ensures TitleSeen(FirstByTitle(AllItems(replies, parseDate, now)), x.title)
    ensures |FirstByTitle(AllItems(replies, parseDate, now))| <= MAX_MERGED ==> TitleSeen(Get(replies, parseDate, now), x.title)
  {
    var unique := FirstByTitle(AllItems(replies, parseDate, now));
    AllItemsMember(replies, parseDate, now, x);
    FirstByTitleUnique(AllItems(replies, parseDate, now));
    if |unique| <= MAX_MERGED {
      FewItemsAllShown(replies, parseDate, now);
      var r := Get(replies, parseDate, now);
      var j :| 0 <= j < |unique| && unique[j].title == x.title;
      assert unique[j] in multiset(r);
      var k :| 0 <= k < |r| && r[k] == unique[j];
    }
  }
}
