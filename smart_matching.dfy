/**
 * The smart-matching chat page: the assistant's HTML replies are cut into
 * typed nodes (plain text, numbered titles, bold text and links), and a
 * house-tour link followed closely by an appointment link is fused into
 * one link group.
 */
module SmartMatching {
  import opened Wrappers
  import opened Text
  import opened Markup
  import Files
  import Seqs

  datatype LinkType = HouseTourLink | AppointmentLink | UnknownLink

  /** One rich-text node, as the page's template renders it. */
  datatype Node =
    | TextNode(text: string)
    | TitleNode(text: string)
    | BoldNode(text: string)
    | LinkNode(text: string, linkType: LinkType, id: string, url: string)
    | LinkGroup(items: seq<Node>)

  predicate IsLinkOf(n: Node, t: LinkType) {
    n.LinkNode? && n.linkType == t
  }

  // ---------------------------------------------------------------------
  // The hidden action comment `<!--\s*ACTION:\s*({.*?})\s*-->`
  // ---------------------------------------------------------------------

  /** `\s*-->` at `q`: the index just after the match. */
  function ActionCloseAt(s: string, q: nat): (r: Option<nat>)
    requires q <= |s|
    ensures r.Some? ==> q + 3 <= r.value <= |s| && OccursAt(s, "-->", r.value - 3)
  {
    var c := q + WhitespaceRun(s[q..]);
    if OccursAt(s, "-->", c) then Some(c + 3) else None
  }

  /** `.*?}\s*-->` from `p`: the lazy body stops at the first `}` the close can follow. */
  function ActionBodyFrom(s: string, p: nat): (r: Option<nat>)
    requires p <= |s|
    ensures r.Some? ==> p + 4 <= r.value <= |s|
    ensures r.Some? ==> OccursAt(s, "-->", r.value - 3)
    decreases |s| - p
  {
    if p == |s| then None
    else if s[p] == '}' && ActionCloseAt(s, p + 1).Some? then ActionCloseAt(s, p + 1)
    else if IsLineTerminator(s[p]) then None
    else ActionBodyFrom(s, p + 1)
  }

  /** `\s*{.*?}\s*-->` from `p`, after the keyword. */
  function ActionPayloadFrom(s: string, p: nat): (r: Option<nat>)
    requires p <= |s|
    ensures r.Some? ==> p + 4 <= r.value <= |s| && OccursAt(s, "-->", r.value - 3)
  {
    var b := p + WhitespaceRun(s[p..]);
    if b < |s| && s[b] == '{' then ActionBodyFrom(s, b + 1) else None
  }

  /** `\s*ACTION:\s*{.*?}\s*-->` from `p`, after the comment opener. */
  function ActionKeywordFrom(s: string, p: nat): (r: Option<nat>)
    requires p <= |s|
    ensures r.Some? ==> p + 4 <= r.value <= |s| && OccursAt(s, "-->", r.value - 3)
  {
    var a := p + WhitespaceRun(s[p..]);
    if a + 7 <= |s| && OccursAt(s, "ACTION:", a) then ActionPayloadFrom(s, a + 7) else None
  }

  /** The end of an action comment starting at `i`, if one does. */
  function ActionAt(s: string, i: nat): (r: Option<nat>)
    requires i <= |s|
    ensures r.Some? ==> i + 4 <= r.value <= |s| && OccursAt(s, "<!--", i) && OccursAt(s, "-->", r.value - 3)
  {
    if OccursAt(s, "<!--", i) then ActionKeywordFrom(s, i + 4) else None
  }

  /** The leftmost action comment at or after `i`, as its start and end. */
  function FindAction(s: string, i: nat): (r: Option<(nat, nat)>)
    requires i <= |s|
    ensures r.Some? ==> i <= r.value.0 <= |s| && ActionAt(s, r.value.0) == Some(r.value.1)
    decreases |s| - i
  {
    var a := ActionAt(s, i);
    if a.Some? then Some((i, a.value))
    else if i == |s| then None
    else FindAction(s, i + 1)
  }

  /** `processed.replace(actionRegex, '')`: only the first action comment is cut out. */
  function RemoveAction(s: string): (r: string)
    ensures FindAction(s, 0).None? ==> r == s
    ensures FindAction(s, 0).Some? ==>
              var (i, e) := FindAction(s, 0).value;
              i + 4 <= e <= |s| && r == s[..i] + s[e..] && ActionAt(s, i) == Some(e)
  {
    match FindAction(s, 0)
    case None => s
    case Some((i, e)) => s[..i] + s[e..]
  }

  /**
   * The rewrites applied before tokenizing: the action comment is cut out,
   * `<br>` and `</p>` become newlines, `<p>` disappears and runs of blank
   * lines collapse to one newline.
   */
  function Preprocess(s: string): string {
    CollapseBlankLines(RemoveParagraphStarts(ReplaceParagraphEnds(ReplaceBreaks(RemoveAction(s)))))
  }

  /** Without a `<!` pair there is no action comment to cut out. */
  lemma {:induction false} NoActionWithoutComment(s: string, i: nat)
    requires i <= |s|
    requires forall j :: i <= j < |s| - 1 ==> !(s[j] == '<' && s[j + 1] == '!')
    ensures FindAction(s, i).None?
    decreases |s| - i
  {
    assert !OccursAt(s, "<!--", i) by {
      if i + 4 <= |s| {
        assert s[i..i + 4][0] == s[i] && s[i..i + 4][1] == s[i + 1];
      }
    }
    if i < |s| {
      NoActionWithoutComment(s, i + 1);
    }
  }

  /** Text without markup or line breaks comes through the rewrites unchanged. */
  lemma PreprocessOfPlainText(s: string)
    requires '<' !in s && '\n' !in s
    ensures Preprocess(s) == s
  {
    NoActionWithoutComment(s, 0);
    var e: string := [];
    assert s + e == s;
    BreaksKeepPlain(s, e);
    ParagraphEndsKeepPlain(s, e);
    ParagraphStartsKeepPlain(s, e);
    CollapseKeepsLines(s, e);
  }

  /** A line break between two lines of plain text becomes one newline. */
  lemma PreprocessOfBreak(a: string, b: string)
    requires '<' !in a && '<' !in b && '\n' !in a && '\n' !in b
    ensures Preprocess(a + "<br>" + b) == a + "\n" + b
  {
    var s := a + "<br>" + b;
    forall j | 0 <= j < |s| - 1
      ensures !(s[j] == '<' && s[j + 1] == '!')
    {
      if j < |a| {
        assert s[j] == a[j];
      } else if j >= |a| + 4 {
        assert s[j] == b[j - |a| - 4];
      } else if j == |a| {
        assert s[j + 1] == 'b';
      } else {
        assert s[j] == "<br>"[j - |a|];
      }
    }
    NoActionWithoutComment(s, 0);
    var e: string := [];
    assert s == a + ("<br>" + b);
    BreaksKeepPlain(a, "<br>" + b);
    BreakBecomesNewline(b);
    BreaksKeepPlain(b, e);
    assert b + e == b;
    var x := a + "\n" + b;
    assert ReplaceBreaks(s) == x;
    assert '<' !in x;
    assert x + e == x;
    ParagraphEndsKeepPlain(x, e);
    ParagraphStartsKeepPlain(x, e);
    assert x == a + ("\n" + b);
    CollapseKeepsLines(a, "\n" + b);
    assert ("\n" + b)[1..] == b;
    var n := WhitespaceRun(b);
    assert LastNewline(b, n).None?;
    CollapseKeepsLines(b, e);
  }

  // ---------------------------------------------------------------------
  // The tag pattern `<strong>(.*?)<\/strong>|<a\s+href="([^"]+)"[^>]*>(.*?)<\/a>`
  // (flags `gi`)
  // ---------------------------------------------------------------------

  /** What a tag match captured. */
  datatype TagKind = Strong(inner: string) | Anchor(href: string, inner: string)

  /** A match of the tag pattern: where it starts and ends, and what it captured. */
  datatype Hit = Hit(index: nat, end: nat, kind: TagKind)

  /** `(.*?)` followed by `close` from `p`: the first place `close` occurs with no line break before it. */
  function LazyUntil(s: string, p: nat, close: string): (r: Option<nat>)
    requires p <= |s|
    ensures r.Some? ==> p <= r.value <= |s| && LiteralAt(s, r.value, close)
    decreases |s| - p
  {
    if LiteralAt(s, p, close) then Some(p)
    else if p == |s| || IsLineTerminator(s[p]) then None
    else LazyUntil(s, p + 1, close)
  }

  /** The first index at or after `p` holding `c`. */
  function CharFrom(s: string, p: nat, c: char): (r: Option<nat>)
    requires p <= |s|
    ensures r.Some? ==> p <= r.value < |s| && s[r.value] == c
    ensures r.Some? ==> forall k :: p <= k < r.value ==> s[k] != c
  {
    match CharIndex(s[p..], c)
    case None => None
    case Some(k) => Some(p + k)
  }

  function StrongAt(s: string, i: nat): (r: Option<Hit>)
    requires i <= |s|
    ensures r.Some? ==> r.value.index == i && i < r.value.end <= |s|
  {
    if !LiteralAt(s, i, "<strong>") then None
    else match LazyUntil(s, i + 8, "</strong>")
      case None => None
      case Some(p) => Some(Hit(i, p + 9, Strong(s[i + 8..p])))
  }

  function AnchorAt(s: string, i: nat): (r: Option<Hit>)
    requires i <= |s|
    ensures r.Some? ==> r.value.index == i && i < r.value.end <= |s|
  {
    if !(LiteralAt(s, i, "<a") && i + 2 < |s| && IsWhitespace(s[i + 2])) then None
    else
      var w := i + 2 + WhitespaceRun(s[i + 2..]);
      if !LiteralAt(s, w, "href=\"") then None
      else
        var u := w + 6;
        match CharFrom(s, u, '"')
        case None => None
        case Some(q) =>
          if q == u then None
          else match CharFrom(s, q + 1, '>')
            case None => None
            case Some(g) =>
              match LazyUntil(s, g + 1, "</a>")
              case None => None
              case Some(p) => Some(Hit(i, p + 4, Anchor(s[u..q], s[g + 1..p])))
  }

  /** The tag pattern tried at `i`, the `<strong>` alternative first. */
  function MatchAt(s: string, i: nat): (r: Option<Hit>)
    requires i <= |s|
    ensures r.Some? ==> r.value.index == i && i < r.value.end <= |s|
  {
    if StrongAt(s, i).Some? then StrongAt(s, i) else AnchorAt(s, i)
  }

  /** The outcome of trying the tag pattern at every position of `s`, end included. */
  function Hits(s: string): (r: seq<Option<Hit>>)
    ensures HitTable(s, r)
    ensures forall j :: 0 <= j <= |s| ==> r[j] == MatchAt(s, j)
  {
    seq(|s| + 1, j requires 0 <= j <= |s| => MatchAt(s, j))
  }

  /** `hits` tells, for every position of `s`, the match of the tag pattern starting there, if any. */
  predicate HitTable(s: string, hits: seq<Option<Hit>>) {
    |hits| == |s| + 1
    && forall k :: 0 <= k < |hits| && hits[k].Some? ==> hits[k].value.index == k && k < hits[k].value.end <= |s|
  }

  /**
   * `tagRegex.exec` with `lastIndex == k`: the match at the first
   * position at or after `k` where the pattern matches.
   */
  function NextMatch(s: string, hits: seq<Option<Hit>>, k: nat): (r: Option<Hit>)
    requires HitTable(s, hits) && k <= |s|
    ensures r.Some? ==> k <= r.value.index <= |s| && hits[r.value.index] == r
    ensures r.Some? ==> forall j :: k <= j < r.value.index ==> hits[j].None?
    ensures r.None? ==> forall j :: k <= j <= |s| ==> hits[j].None?
    decreases |s| - k
  {
    if hits[k].Some? then hits[k]
    else if k == |s| then None
    else NextMatch(s, hits, k + 1)
  }

  // ---------------------------------------------------------------------
  // Classification of one match
  // ---------------------------------------------------------------------

  /** `/^\d+\./.test(text)` */
  predicate IsNumberedHeading(text: string) {
    var d := LongestDigitPrefix(text);
    d != [] && |d| < |text| && text[|d|] == '.'
  }

  /** The heading test reads as the pattern does: one or more digits, then a dot. */
  lemma NumberedHeadingIff(text: string)
    ensures IsNumberedHeading(text) <==> exists n :: 1 <= n < |text| && AllDigits(text[..n]) && text[n] == '.'
  {
    var d := LongestDigitPrefix(text);
    if IsNumberedHeading(text) {
      assert text[..|d|] == d;
    }
    if exists n :: 1 <= n < |text| && AllDigits(text[..n]) && text[n] == '.' {
      var n :| 1 <= n < |text| && AllDigits(text[..n]) && text[n] == '.';
      if |d| < n {
        assert text[..n][|d|] == text[|d|];
      } else if |d| > n {
        assert d[n] == text[n];
      }
    }
  }

  /** The type of a link, by what its URL mentions; house tours win. */
  function LinkTypeOf(url: string): (r: LinkType)
    ensures r == HouseTourLink <==> Contains(url, "house-tour")
    ensures r == AppointmentLink <==> !Contains(url, "house-tour") && Contains(url, "appointment")
  {
    if Contains(url, "house-tour") then HouseTourLink
    else if Contains(url, "appointment") then AppointmentLink
    else UnknownLink
  }

  /** `houseId=` followed by a digit starts at `p`: where `/houseId=(\d+)/` can match. */
  predicate IdAt(url: string, p: nat) {
    OccursAt(url, "houseId=", p) && p + 8 < |url| && IsDigit(url[p + 8])
  }

  /** The leftmost position at or after `i` where `houseId=` is followed by a digit. */
  function HouseIdFrom(url: string, i: nat): (r: Option<nat>)
    requires i <= |url|
    ensures r.Some? ==> i <= r.value && IdAt(url, r.value)
    ensures r.Some? ==> forall k: nat :: i <= k < r.value ==> !IdAt(url, k)
    ensures r.None? ==> forall k: nat :: i <= k ==> !IdAt(url, k)
    decreases |url| - i
  {
    if IdAt(url, i) then Some(i)
    else if i == |url| then None
    else HouseIdFrom(url, i + 1)
  }

  /**
   * The id a link carries: the digits captured by the first match of
   * `/houseId=(\d+)/`, and `''` for unknown links or when it does not match.
   */
  function LinkId(linkType: LinkType, url: string): (r: string)
    ensures linkType == UnknownLink ==> r == ""
    ensures r != "" <==> linkType != UnknownLink && exists p: nat :: IdAt(url, p)
    ensures r != "" ==> AllDigits(r)
    ensures r != "" ==>
              exists p: nat :: && IdAt(url, p)
                               && (forall k: nat :: k < p ==> !IdAt(url, k))
                               && OccursAt(url, "houseId=" + r, p)
                               && (p + 8 + |r| == |url| || !IsDigit(url[p + 8 + |r|]))
  {
    if linkType == UnknownLink then ""
    else match HouseIdFrom(url, 0)
      case None => ""
      case Some(p) =>
        IdDigits(url, p);
        LongestDigitPrefix(url[p + 8..])
  }

  /** At a match of `houseId=\d`, the captured digits are the whole digit run after `houseId=`. */
  lemma IdDigits(url: string, p: nat)
    requires IdAt(url, p)
    ensures var d := LongestDigitPrefix(url[p + 8..]);
            && d != [] && AllDigits(d)
            && OccursAt(url, "houseId=" + d, p)
            && (p + 8 + |d| == |url| || !IsDigit(url[p + 8 + |d|]))
  {
    var d := LongestDigitPrefix(url[p + 8..]);
    assert url[p + 8..][0] == url[p + 8];
    assert url[p..p + 8 + |d|] == url[p..p + 8] + d;
    assert |d| < |url[p + 8..]| ==> url[p + 8..][|d|] == url[p + 8 + |d|];
  }

  /** The node one match becomes. */
  function NodeOf(kind: TagKind): (n: Node)
    ensures !n.TextNode? && !n.LinkGroup?
    ensures kind.Strong? ==> n == (if IsNumberedHeading(kind.inner) then TitleNode(kind.inner) else BoldNode(kind.inner))
    ensures kind.Anchor? ==> n.LinkNode? && n.text == kind.inner && n.url == kind.href
    ensures kind.Anchor? ==> n.linkType == LinkTypeOf(kind.href) && n.id == LinkId(n.linkType, kind.href)
  {
    match kind
    case Strong(inner) => if IsNumberedHeading(inner) then TitleNode(inner) else BoldNode(inner)
    case Anchor(href, inner) =>
      var t := LinkTypeOf(href);
      LinkNode(inner, t, LinkId(t, href), href)
  }

  // ---------------------------------------------------------------------
  // Tokenizing
  // ---------------------------------------------------------------------

  /** A node together with the stretch `[start, end)` of the text it came from. */
  datatype Piece = Piece(start: nat, end: nat, node: Node)

  /**
   * A text piece is the text it covers, and no match of the tag pattern
   * starts inside it; any other piece is the node of the match that
   * starts at `start` and ends at `end`.
   */
  predicate PieceOk(s: string, hits: seq<Option<Hit>>, p: Piece)
    requires HitTable(s, hits)
  {
    p.start < p.end <= |s|
    && if p.node.TextNode? then
         p.node.text == s[p.start..p.end] && forall j :: p.start <= j < p.end ==> hits[j].None?
       else
         hits[p.start].Some? && hits[p.start].value.end == p.end && p.node == NodeOf(hits[p.start].value.kind)
  }

  /** The pieces lie end to end and cover `s[k..m]` exactly. */
  ghost predicate Chain(s: string, hits: seq<Option<Hit>>, ps: seq<Piece>, k: nat, m: nat)
    requires HitTable(s, hits)
  {
    && (ps == [] ==> k == m)
    && (ps != [] ==> ps[0].start == k && ps[|ps| - 1].end == m)
    && (forall i :: 0 <= i < |ps| ==> PieceOk(s, hits, ps[i]))
    && (forall i, j :: 0 <= i < j < |ps| && j == i + 1 ==> ps[i].end == ps[j].start)
  }

  /** The pieces cover `s[k..]`. */
  ghost predicate Tiles(s: string, hits: seq<Option<Hit>>, ps: seq<Piece>, k: nat)
    requires HitTable(s, hits)
  {
    Chain(s, hits, ps, k, |s|)
  }

  lemma ChainAppend(s: string, hits: seq<Option<Hit>>, a: seq<Piece>, b: seq<Piece>, k: nat, m: nat, n: nat)
    requires HitTable(s, hits) && Chain(s, hits, a, k, m) && Chain(s, hits, b, m, n)
    ensures Chain(s, hits, a + b, k, n)
  {
    var ps := a + b;
    assert forall i :: 0 <= i < |ps| ==> ps[i] == if i < |a| then a[i] else b[i - |a|];
  }

  /** The text before the match `h` that the tokenizer emits from `k`, if any. */
  function Gap(s: string, k: nat, h: Hit): seq<Piece>
    requires k <= h.index <= |s|
  {
    if h.index > k then [Piece(k, h.index, TextNode(s[k..h.index]))] else []
  }

  /**
   * The pieces the tokenizer produces from `s[k..]`: the text before each
   * leftmost match, the match itself, and the text after the last one.
   */
  function PiecesFrom(s: string, hits: seq<Option<Hit>>, k: nat): (ps: seq<Piece>)
    requires HitTable(s, hits) && k <= |s|
    decreases |s| - k
  {
    match NextMatch(s, hits, k)
    case None => if k < |s| then [Piece(k, |s|, TextNode(s[k..]))] else []
    case Some(h) => Gap(s, k, h) + [Piece(h.index, h.end, NodeOf(h.kind))] + PiecesFrom(s, hits, h.end)
  }

  /** The pieces tile the text: every character belongs to exactly one piece, in order. */
  lemma {:induction false} PiecesTile(s: string, hits: seq<Option<Hit>>, k: nat)
    requires HitTable(s, hits) && k <= |s|
    ensures Tiles(s, hits, PiecesFrom(s, hits, k), k)
    decreases |s| - k
  {
    match NextMatch(s, hits, k)
    case None =>
      if k < |s| {
        assert PieceOk(s, hits, Piece(k, |s|, TextNode(s[k..])));
      }
    case Some(h) =>
      PiecesTile(s, hits, h.end);
      var gap := Gap(s, k, h);
      var tag := [Piece(h.index, h.end, NodeOf(h.kind))];
      GapChain(s, hits, k, h);
      assert PieceOk(s, hits, tag[0]);
      ChainAppend(s, hits, gap, tag, k, h.index, h.end);
      ChainAppend(s, hits, gap + tag, PiecesFrom(s, hits, h.end), k, h.end, |s|);
  }

  lemma GapChain(s: string, hits: seq<Option<Hit>>, k: nat, h: Hit)
    requires HitTable(s, hits) && k <= |s| && NextMatch(s, hits, k) == Some(h)
    ensures Chain(s, hits, Gap(s, k, h), k, h.index)
  {
    if h.index > k {
      assert PieceOk(s, hits, Piece(k, h.index, TextNode(s[k..h.index])));
    }
  }

  function Nodes(ps: seq<Piece>): (r: seq<Node>)
    ensures |r| == |ps| && forall i :: 0 <= i < |ps| ==> r[i] == ps[i].node
  {
    if ps == [] then [] else [ps[0].node] + Nodes(ps[1..])
  }

  lemma {:induction false} NodesAppend(a: seq<Piece>, b: seq<Piece>)
    ensures Nodes(a + b) == Nodes(a) + Nodes(b)
  {
    if a != [] {
      assert (a + b)[1..] == a[1..] + b;
      NodesAppend(a[1..], b);
    }
  }

  /** One step of the tokenizer: what the next match contributes. */
  lemma NodesStep(s: string, hits: seq<Option<Hit>>, k: nat)
    requires HitTable(s, hits) && k <= |s| && NextMatch(s, hits, k).Some?
    ensures var h := NextMatch(s, hits, k).value;
            Nodes(PiecesFrom(s, hits, k)) == Nodes(Gap(s, k, h)) + [NodeOf(h.kind)] + Nodes(PiecesFrom(s, hits, h.end))
  {
    var h := NextMatch(s, hits, k).value;
    var tag := [Piece(h.index, h.end, NodeOf(h.kind))];
    assert PiecesFrom(s, hits, k) == Gap(s, k, h) + tag + PiecesFrom(s, hits, h.end);
    NodesAppend(Gap(s, k, h) + tag, PiecesFrom(s, hits, h.end));
    NodesAppend(Gap(s, k, h), tag);
  }

  /** The nodes of `s`, before grouping. */
  function Tokens(s: string): seq<Node> {
    Nodes(PiecesFrom(s, Hits(s), 0))
  }

  /** The shape of a token list: no groups and no empty text nodes. */
  predicate TokenList(ns: seq<Node>) {
    forall k :: 0 <= k < |ns| ==> !ns[k].LinkGroup? && (ns[k].TextNode? ==> ns[k].text != "")
  }

  /** No text node is empty and the tokenizer itself makes no groups. */
  lemma TokensShape(s: string)
    ensures TokenList(Tokens(s))
  {
    var ps := PiecesFrom(s, Hits(s), 0);
    PiecesTile(s, Hits(s), 0);
    forall k | 0 <= k < |ps|
      ensures !ps[k].node.LinkGroup? && (ps[k].node.TextNode? ==> ps[k].node.text != "")
    {
      assert PieceOk(s, Hits(s), ps[k]);
    }
  }

  /** Text in which the pattern matches nowhere is a single text node. */
  lemma TokensOfPlainText(s: string)
    requires s != [] && forall j :: 0 <= j <= |s| ==> MatchAt(s, j).None?
    ensures Tokens(s) == [TextNode(s)]
  {
    assert NextMatch(s, Hits(s), 0).None?;
  }

  // ---------------------------------------------------------------------
  // Grouping links
  // ---------------------------------------------------------------------

  /**
   * The look-ahead from the house-tour link at `i`, scanning from `j`: the
   * index of an appointment link among the next three nodes, reached over
   * text nodes only.
   */
  function PartnerFrom(ns: seq<Node>, i: nat, j: nat): (r: Option<nat>)
    requires i < j <= |ns|
    ensures r.Some? ==> j <= r.value < |ns| && r.value < i + 4 && IsLinkOf(ns[r.value], AppointmentLink)
    ensures r.Some? ==> forall k :: j <= k < r.value ==> ns[k].TextNode?
    decreases |ns| - j
  {
    if j == |ns| || j >= i + 4 then None
    else if IsLinkOf(ns[j], AppointmentLink) then Some(j)
    else if ns[j].TextNode? then PartnerFrom(ns, i, j + 1)
    else None
  }

  /**
   * When the look-ahead finds nothing, every appointment link within reach
   * is cut off by a node that is not text.
   */
  lemma {:induction false} PartnerFromNone(ns: seq<Node>, i: nat, j: nat, p: nat)
    requires i < j <= p < |ns| && p < i + 4 && IsLinkOf(ns[p], AppointmentLink)
    requires PartnerFrom(ns, i, j).None?
    ensures exists k :: j <= k < p && !ns[k].TextNode?
    decreases |ns| - j
  {
    if ns[j].TextNode? {
      PartnerFromNone(ns, i, j + 1, p);
    } else {
      assert j < p;
    }
  }

  /** The appointment link the node at `i` is grouped with, if it is a house-tour link that has one. */
  function Partner(ns: seq<Node>, i: nat): (r: Option<nat>)
    requires i < |ns|
    ensures r.Some? ==> i < r.value < |ns| && r.value < i + 4
  {
    if IsLinkOf(ns[i], HouseTourLink) then PartnerFrom(ns, i, i + 1) else None
  }

  /** The output node made at `i`: a group up to the partner, or the node itself. */
  function GroupAt(ns: seq<Node>, i: nat): Node
    requires i < |ns|
  {
    match Partner(ns, i)
    case Some(j) => LinkGroup(ns[i..j + 1])
    case None => ns[i]
  }

  /** Where the pass resumes after the node made at `i`. */
  function NextIndex(ns: seq<Node>, i: nat): (r: nat)
    requires i < |ns|
    ensures i < r <= |ns|
  {
    match Partner(ns, i)
    case Some(j) => j + 1
    case None => i + 1
  }

  /** The grouped nodes from index `i` on. */
  function GroupFrom(ns: seq<Node>, i: nat): (r: seq<Node>)
    requires i <= |ns|
    ensures |r| <= |ns| - i
    decreases |ns| - i
  {
    if i == |ns| then [] else [GroupAt(ns, i)] + GroupFrom(ns, NextIndex(ns, i))
  }

  /** A group holds a house-tour link, at most two text nodes and an appointment link. */
  predicate WellFormedGroup(items: seq<Node>) {
    && 2 <= |items| <= 4
    && IsLinkOf(items[0], HouseTourLink)
    && IsLinkOf(items[|items| - 1], AppointmentLink)
    && forall k :: 0 < k < |items| - 1 ==> items[k].TextNode?
  }

  predicate NoGroups(ns: seq<Node>) {
    forall k :: 0 <= k < |ns| ==> !ns[k].LinkGroup?
  }

  /** What one output node stands for in the input. */
  function Expand(n: Node): seq<Node> {
    if n.LinkGroup? then n.items else [n]
  }

  /** The output with every group replaced by its items. */
  function Flatten(ns: seq<Node>): seq<Node> {
    if ns == [] then [] else Expand(ns[0]) + Flatten(ns[1..])
  }

  lemma FlattenCons(n: Node, rest: seq<Node>)
    ensures Flatten([n] + rest) == Expand(n) + Flatten(rest)
  {
    assert ([n] + rest)[1..] == rest;
  }

  /** The node made at `i` stands for exactly the input nodes it consumes, and a group it makes is well formed. */
  lemma GroupAtShape(ns: seq<Node>, i: nat)
    requires i < |ns| && !ns[i].LinkGroup?
    ensures Expand(GroupAt(ns, i)) == ns[i..NextIndex(ns, i)]
    ensures GroupAt(ns, i).LinkGroup? ==> WellFormedGroup(GroupAt(ns, i).items)
  {
    match Partner(ns, i)
    case Some(j) =>
      var items := ns[i..j + 1];
      assert forall k :: 0 < k < |items| - 1 ==> items[k] == ns[i + k];
    case None =>
  }

  /** Flattening the groups gives the input back. */
  lemma {:induction false} GroupFlatten(ns: seq<Node>, i: nat)
    requires i <= |ns| && NoGroups(ns)
    ensures Flatten(GroupFrom(ns, i)) == ns[i..]
    decreases |ns| - i
  {
    if i < |ns| {
      var n := NextIndex(ns, i);
      var g, rest := GroupAt(ns, i), GroupFrom(ns, n);
      assert GroupFrom(ns, i) == [g] + rest;
      GroupFlatten(ns, n);
      GroupAtShape(ns, i);
      FlattenJoin(g, rest, ns, i, n);
    }
  }

  /** One step of `GroupFlatten`: the node made at `i` followed by the rest spells `ns[i..]`. */
  lemma FlattenJoin(g: Node, rest: seq<Node>, ns: seq<Node>, i: nat, n: nat)
    requires i <= n <= |ns|
    requires Expand(g) == ns[i..n] && Flatten(rest) == ns[n..]
    ensures Flatten([g] + rest) == ns[i..]
  {
    FlattenCons(g, rest);
    assert ns[i..] == ns[i..n] + ns[n..];
  }

  /** Every group in `r` is well formed. */
  predicate GroupsWellFormed(r: seq<Node>) {
    forall k :: 0 <= k < |r| && r[k].LinkGroup? ==> WellFormedGroup(r[k].items)
  }

  lemma GroupsWellFormedCons(n: Node, rest: seq<Node>)
    requires n.LinkGroup? ==> WellFormedGroup(n.items)
    requires GroupsWellFormed(rest)
    ensures GroupsWellFormed([n] + rest)
  {
    var r := [n] + rest;
    forall k | 0 <= k < |r| && r[k].LinkGroup?
      ensures WellFormedGroup(r[k].items)
    {
      if k > 0 {
        assert r[k] == rest[k - 1];
      }
    }
  }

  /** Every group made is well formed. */
  lemma {:induction false} GroupShape(ns: seq<Node>, i: nat)
    requires i <= |ns| && NoGroups(ns)
    ensures GroupsWellFormed(GroupFrom(ns, i))
    decreases |ns| - i
  {
    if i < |ns| {
      var n := NextIndex(ns, i);
      GroupShape(ns, n);
      GroupAtShape(ns, i);
      GroupsWellFormedCons(GroupAt(ns, i), GroupFrom(ns, n));
    }
  }

  /**
   * The inner scan of `groupLinks` from the house-tour link at `i`: the
   * appointment link found, if any, and the text nodes passed over.
   */
  method ScanForAppointment(nodes: seq<Node>, i: nat) returns (partner: Option<nat>, middle: seq<Node>)
    requires i < |nodes|
    ensures partner == PartnerFrom(nodes, i, i + 1)
    ensures partner.Some? ==> middle == nodes[i + 1..partner.value]
  {
    var j := i + 1;
    middle := [];
    partner := None;
    while j < |nodes| && j < i + 4
      invariant i + 1 <= j <= |nodes| && j <= i + 4
      invariant middle == nodes[i + 1..j]
      invariant PartnerFrom(nodes, i, i + 1) == PartnerFrom(nodes, i, j)
    {
      var next := nodes[j];
      if IsLinkOf(next, AppointmentLink) {
        partner := Some(j);
        return;
      } else if next.TextNode? {
        middle := middle + [next];
      } else {
        return;
      }
      j := j + 1;
    }
  }

  /** What one pass of `groupLinks` pushes keeps the loop invariant. */
  lemma GroupLinksStep(nodes: seq<Node>, i: nat, acc: seq<Node>)
    requires i < |nodes| && acc + GroupFrom(nodes, i) == GroupFrom(nodes, 0)
    ensures acc + [GroupAt(nodes, i)] + GroupFrom(nodes, NextIndex(nodes, i)) == GroupFrom(nodes, 0)
  {
    assert GroupFrom(nodes, i) == [GroupAt(nodes, i)] + GroupFrom(nodes, NextIndex(nodes, i));
  }

  /**
   * One turn of the outer loop of `groupLinks` at `i`: the node pushed
   * and the index the loop moves on to.
   */
  method NextGroup(nodes: seq<Node>, i: nat) returns (node: Node, next: nat)
    requires i < |nodes|
    ensures node == GroupAt(nodes, i) && next == NextIndex(nodes, i)
  {
    var current := nodes[i];
    if IsLinkOf(current, HouseTourLink) {
      var partner, middle := ScanForAppointment(nodes, i);
      if partner.Some? {
        var j := partner.value;
        assert [current] + middle + [nodes[j]] == nodes[i..j + 1];
        return LinkGroup([current] + middle + [nodes[j]]), j + 1;
      }
    }
    return current, i + 1;
  }

  /** `groupLinks`: one pass with a look-ahead of three nodes. */
  method GroupLinks(nodes: seq<Node>) returns (newNodes: seq<Node>)
    ensures newNodes == GroupFrom(nodes, 0)
  {
    newNodes := [];
    var i := 0;
    while i < |nodes|
      invariant i <= |nodes|
      invariant newNodes + GroupFrom(nodes, i) == GroupFrom(nodes, 0)
      decreases |nodes| - i
    {
      var node, next := NextGroup(nodes, i);
      GroupLinksStep(nodes, i, newNodes);
      newNodes := newNodes + [node];
      i := next;
    }
  }

  // ---------------------------------------------------------------------
  // parseMessage
  // ---------------------------------------------------------------------

  /** What `parseMessage` returns for a message's content. */
  function Parsed(content: Option<string>): (r: seq<Node>)
    ensures !Truthy(content) ==> r == []
  {
    if !Truthy(content) then [] else GroupFrom(Tokens(Preprocess(content.value)), 0)
  }

  /** The parsed nodes, with their groups flattened, are exactly the tokens of the preprocessed content. */
  lemma ParsedFlattens(content: string)
    requires content != ""
    ensures Flatten(Parsed(Some(content))) == Tokens(Preprocess(content))
  {
    TokensShape(Preprocess(content));
    GroupFlatten(Tokens(Preprocess(content)), 0);
  }

  /** What one pass of the tokenizing loop appends keeps the loop invariant. */
  lemma TokenizeStep(s: string, hits: seq<Option<Hit>>, k: nat, before: seq<Node>)
    requires HitTable(s, hits) && k <= |s| && NextMatch(s, hits, k).Some?
    ensures var h := NextMatch(s, hits, k).value;
            h.index > k ==>
              before + [TextNode(s[k..h.index])] + [NodeOf(h.kind)] + Nodes(PiecesFrom(s, hits, h.end))
              == before + Nodes(PiecesFrom(s, hits, k))
    ensures var h := NextMatch(s, hits, k).value;
            h.index <= k ==>
              before + [NodeOf(h.kind)] + Nodes(PiecesFrom(s, hits, h.end)) == before + Nodes(PiecesFrom(s, hits, k))
  {
    NodesStep(s, hits, k);
  }

  /**
   * The `while` loop of `parseMessage`: each match found from `lastIndex`
   * contributes the text before it, if any, and its own node; the text
   * after the last match closes the list.
   */
  method Tokenize(s: string, hits: seq<Option<Hit>>) returns (tokens: seq<Node>)
    requires HitTable(s, hits)
    ensures tokens == Nodes(PiecesFrom(s, hits, 0))
  {
    tokens := [];
    var lastIndex := 0;
    var m := NextMatch(s, hits, 0);
    while m.Some?
      invariant lastIndex <= |s|
      invariant m == NextMatch(s, hits, lastIndex)
      invariant tokens + Nodes(PiecesFrom(s, hits, lastIndex)) == Nodes(PiecesFrom(s, hits, 0))
      decreases |s| - lastIndex
    {
      var hit := m.value;
      TokenizeStep(s, hits, lastIndex, tokens);
      if hit.index > lastIndex {
        tokens := tokens + [TextNode(s[lastIndex..hit.index])];
      }
      tokens := tokens + [NodeOf(hit.kind)];
      lastIndex := hit.end;
      m := NextMatch(s, hits, lastIndex);
    }
    if lastIndex < |s| {
      tokens := tokens + [TextNode(s[lastIndex..])];
    }
  }

  /** `parseMessage`: preprocessing, the tokenizing loop, then grouping. */
  method ParseMessage(content: Option<string>) returns (nodes: seq<Node>)
    ensures nodes == Parsed(content)
  {
    if !Truthy(content) {
      return [];
    }
    var processed := Preprocess(content.value);
    var tokens := Tokenize(processed, Hits(processed));
    nodes := GroupLinks(tokens);
  }

  // ---------------------------------------------------------------------
  // The page
  // ---------------------------------------------------------------------

  const DefaultAvatar := "/models/image/default-avatar.png"
  const Welcome := "您好！我是您的智能租房助手。请先登录以获取更个性化的服务。"
  const Unavailable := "抱歉，我现在无法回答，请稍后再试。"
  const NetworkTrouble := "网络连接出现问题，请检查您的网络设置。"
  const BottomScroll := 99999
  const HistoryPrefix := "/api/smart-matching/history/"
  const HistoryFailed := "获取历史记录失败"
  const GreetingTail := "！我是您的智能租房助手。我已经了解了您的租房偏好，请告诉我您的具体需求，我会为您推荐合适的房源。"

  /**
   * The stored user, as far as this page reads it. The `username` keeps
   * `undefined` and `null` apart, since the greeting prints it.
   */
  datatype ChatUser = ChatUser(id: int, avatar: Option<string>, realName: Option<string>, username: Nullable<string>)

  datatype Role = User | Assistant

  datatype Message = Message(role: Role, content: Option<string>, parsedContent: seq<Node>, timestamp: int)

  /**
   * The outcome of the chat request: a successful reply with its
   * `data.content`, a reply without `success`, or a failure (a rejected
   * request, or a successful reply whose `data` is missing, which throws
   * inside the `try`).
   */
  datatype ChatReply = Answered(content: Option<string>) | Declined | Failed

  /** One stored message of the chat history. */
  datatype HistoryEntry = HistoryEntry(role: Role, content: Option<string>, createdTime: string)

  /**
   * The outcome of the history request: the resolved body, `None` when it
   * is falsy (read as `[]`), or a failure (a rejected request, or a truthy
   * body that is not an array, whose `map` throws inside the `try`).
   */
  datatype HistoryReply = HistoryThrew | HistoryAnswered(entries: Option<seq<HistoryEntry>>)

  datatype ChatData = ChatData(
    user: Option<ChatUser>,
    messages: seq<Message>,
    userInput: string,
    loading: bool,
    scrollTop: int,
    avatarUrl: string)

  /** `getAvatarUrl(user)` */
  function AvatarUrl(user: Option<ChatUser>): (r: string)
    ensures (user.None? || !Truthy(user.value.avatar)) ==> r == DefaultAvatar
    ensures user.Some? && Truthy(user.value.avatar) && StartsWith(user.value.avatar.value, "http") ==> r == user.value.avatar.value
    ensures user.Some? && Truthy(user.value.avatar) && !StartsWith(user.value.avatar.value, "http") ==>
              r == Files.DownloadPrefix + user.value.avatar.value
  {
    if user.None? then DefaultAvatar else Files.Resolve(user.value.avatar, DefaultAvatar)
  }

  /** A message as the page stores it: its content together with the parsed nodes. */
  function MessageOf(role: Role, content: Option<string>, timestamp: int): (m: Message)
    ensures m.role == role && m.content == content && m.timestamp == timestamp
    ensures !Truthy(content) ==> m.parsedContent == []
  {
    Message(role, content, Parsed(content), timestamp)
  }

  /** `realName || username`, as the greeting spells it. */
  function GreetingName(u: ChatUser): (r: string)
    ensures Truthy(u.realName) ==> r == u.realName.value
    ensures !Truthy(u.realName) && u.username.Present? ==> r == u.username.value
    ensures !Truthy(u.realName) && u.username.Missing? ==> r == "undefined"
    ensures !Truthy(u.realName) && u.username.NullValue? ==> r == "null"
  {
    Or(u.realName, Spelled(u.username))
  }

  /** The greeting shown to a signed-in user whose history is empty. */
  function Greeting(u: ChatUser): string {
    "您好" + GreetingName(u) + GreetingTail
  }

  /**
   * The history as messages: one per stored entry, in order, each with the
   * entry's role and content, its parsed nodes and the time its
   * `createdTime` stands for (`timeOf` stands in for `new Date(…).getTime()`).
   */
  function HistoryMessages(entries: seq<HistoryEntry>, timeOf: string -> int): (r: seq<Message>)
    ensures |r| == |entries|
    ensures forall i :: 0 <= i < |r| ==> r[i].role == entries[i].role && r[i].content == entries[i].content
    ensures forall i :: 0 <= i < |r| ==> r[i] == MessageOf(entries[i].role, entries[i].content, timeOf(entries[i].createdTime))
  {
    var r := seq(|entries|, i requires 0 <= i < |entries| => MessageOf(entries[i].role, entries[i].content, timeOf(entries[i].createdTime)));
    assert forall i :: 0 <= i < |r| ==> r[i] == MessageOf(entries[i].role, entries[i].content, timeOf(entries[i].createdTime));
    r
  }

  /**
   * The messages `fetchHistory` shows: the history, or the greeting alone
   * when the history is empty; the page never shows an empty chat after it.
   */
  function ShownHistory(entries: seq<HistoryEntry>, u: ChatUser, now: int, timeOf: string -> int): (r: seq<Message>)
    ensures r != []
    ensures entries != [] ==> r == HistoryMessages(entries, timeOf)
    ensures entries == [] ==> r == [MessageOf(Assistant, Some(Greeting(u)), now)]
  {
    HistoryMessages(entries, timeOf) + if entries == [] then [MessageOf(Assistant, Some(Greeting(u)), now)] else []
  }

  /** The assistant's text for each outcome of the chat request. */
  function ReplyText(reply: ChatReply): (r: Option<string>)
    ensures reply.Answered? ==> r == reply.content
    ensures reply.Declined? ==> r == Some(Unavailable)
    ensures reply.Failed? ==> r == Some(NetworkTrouble)
  {
    match reply
    case Answered(c) => c
    case Declined => Some(Unavailable)
    case Failed => Some(NetworkTrouble)
  }

  /** The assistant message built in each branch of the chat request's outcome. */
  method ReplyOf(reply: ChatReply, timestamp: int) returns (m: Message)
    ensures m == MessageOf(Assistant, ReplyText(reply), timestamp)
  {
    var text: Option<string>;
    match reply {
      case Answered(c) => text := c;
      case Declined => text := Some(Unavailable);
      case Failed => text := Some(NetworkTrouble);
    }
    var nodes := ParseMessage(text);
    m := Message(Assistant, text, nodes, timestamp);
  }

  class SmartMatchingPage {
    var data: ChatData

    constructor ()
      ensures data == ChatData(None, [], "", false, 0, DefaultAvatar)
    {
      data := ChatData(None, [], "", false, 0, DefaultAvatar);
    }

    /**
     * `checkLoginStatus` with the stored user: a user sets the avatar and
     * fetches the history, whose request settles with `history`; no user
     * shows the welcome message and requests nothing.
     */
    method CheckLoginStatus(stored: Option<ChatUser>, now: int, history: HistoryReply, timeOf: string -> int)
      returns (historyUrl: Option<string>, toast: Option<string>)
      modifies this
      ensures stored.None? ==>
                && historyUrl.None? && toast.None?
                && data == old(data).(user := None, messages := [MessageOf(Assistant, Some(Welcome), now)])
      ensures stored.Some? ==> historyUrl == Some(HistoryPrefix + IntToString(stored.value.id))
      ensures stored.Some? && history.HistoryThrew? ==>
                toast == Some(HistoryFailed) && data == old(data).(user := stored, avatarUrl := AvatarUrl(stored))
      ensures stored.Some? && history.HistoryAnswered? ==>
                && toast.None?
                && data == old(data).(user := stored, avatarUrl := AvatarUrl(stored),
                                      messages := ShownHistory(history.entries.GetOr([]), stored.value, now, timeOf))
    {
      if stored.Some? {
        data := data.(user := stored, avatarUrl := AvatarUrl(stored));
        historyUrl, toast := FetchHistory(now, history, timeOf);
      } else {
        var parsed := ParseMessage(Some(Welcome));
        data := data.(user := None, messages := [Message(Assistant, Some(Welcome), parsed, now)]);
        historyUrl, toast := None, None;
      }
    }

    /**
     * `fetchHistory`: without a user nothing is requested. Otherwise the
     * user's history is requested; when it arrives the messages become the
     * history, or the greeting when it is empty, and a failure leaves them
     * and shows a toast.
     */
    method FetchHistory(now: int, history: HistoryReply, timeOf: string -> int) returns (historyUrl: Option<string>, toast: Option<string>)
      modifies this
      ensures old(data.user).None? ==> historyUrl.None? && toast.None? && data == old(data)
      ensures old(data.user).Some? ==> historyUrl == Some(HistoryPrefix + IntToString(old(data.user).value.id))
      ensures old(data.user).Some? && history.HistoryThrew? ==> toast == Some(HistoryFailed) && data == old(data)
      ensures old(data.user).Some? && history.HistoryAnswered? ==>
                && toast.None?
                && data == old(data).(messages := ShownHistory(history.entries.GetOr([]), old(data.user).value, now, timeOf))
    {
      toast := None;
      if data.user.None? {
        return None, None;
      }
      historyUrl := Some(HistoryPrefix + IntToString(data.user.value.id));
      match history {
        case HistoryThrew =>
          toast := Some(HistoryFailed);
        case HistoryAnswered(body) =>
          var entries := body.GetOr([]);
          var messages := HistoryMessages(entries, timeOf);
          if |messages| == 0 {
            var greeting := Greeting(data.user.value);
            var parsed := ParseMessage(Some(greeting));
            messages := messages + [Message(Assistant, Some(greeting), parsed, now)];
          }
          data := data.(messages := messages);
      }
    }

    /** `handleInput` */
    method HandleInput(value: string)
      modifies this
      ensures data == old(data).(userInput := value)
    {
      data := data.(userInput := value);
    }

    /** The first update of `sendMessage`: the question is shown and the reply awaited. */
    method PostQuestion(content: string, sentAt: int)
      modifies this
      ensures data == old(data).(
                messages := old(data.messages) + [MessageOf(User, Some(content), sentAt)],
                userInput := "", loading := true, scrollTop := BottomScroll)
    {
      var parsed := ParseMessage(Some(content));
      var question := Message(User, Some(content), parsed, sentAt);
      data := data.(messages := data.messages + [question], userInput := "", loading := true, scrollTop := BottomScroll);
    }

    /** The updates of `sendMessage` once the request settles: the reply is shown and `loading` cleared. */
    method PostReply(reply: ChatReply, repliedAt: int)
      modifies this
      ensures data == old(data).(
                messages := old(data.messages) + [MessageOf(Assistant, ReplyText(reply), repliedAt)],
                loading := false, scrollTop := BottomScroll)
    {
      var answer := ReplyOf(reply, repliedAt);
      data := data.(messages := data.messages + [answer]);
      data := data.(loading := false, scrollTop := BottomScroll);
    }

    /**
     * `sendMessage`: blank input or a pending reply changes nothing;
     * without a user the page only asks to log in. Otherwise the trimmed
     * question and the reply are appended, the input is cleared and the
     * page ends scrolled to the bottom with `loading` off.
     */
    method SendMessage(reply: ChatReply, sentAt: int, repliedAt: int) returns (askedToLogin: bool)
      modifies this
      ensures Trim(old(data.userInput)) == "" || old(data.loading) ==> data == old(data) && !askedToLogin
      ensures Trim(old(data.userInput)) != "" && !old(data.loading) && old(data.user).None? ==>
                data == old(data) && askedToLogin
      ensures Trim(old(data.userInput)) != "" && !old(data.loading) && old(data.user).Some? ==>
              var content := Trim(old(data.userInput));
              !askedToLogin && data == old(data).(
                messages := old(data.messages) + [MessageOf(User, Some(content), sentAt), MessageOf(Assistant, ReplyText(reply), repliedAt)],
                userInput := "",
                loading := false,
                scrollTop := BottomScroll)
    {
      askedToLogin := false;
      var content := Trim(data.userInput);
      if content == "" || data.loading {
        return;
      }
      if data.user.None? {
        askedToLogin := true;
        return;
      }
      var history := data.messages;
      PostQuestion(content, sentAt);
      PostReply(reply, repliedAt);
      Seqs.AppendTwo(history, MessageOf(User, Some(content), sentAt), MessageOf(Assistant, ReplyText(reply), repliedAt));
    }
  }
}
