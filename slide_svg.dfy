/**
 * The backend's SVG slide builder (`generate_slide_svg` in backend/main.py):
 * a fixed 960x540 template holding an escaped title, up to five escaped and
 * shortened bullets laid out top to bottom, and a "Slide n/total" footer.
 */
module SlideSvg {
  import opened Text

  const MaxBullets: nat := 5
  /** Bullets longer than this many characters are cut and get "..." appended. */
  const BulletWidth: nat := 60
  /** The title is cut to this many characters, with no ellipsis. */
  const TitleWidth: nat := 40
  /** The `y` of the first bullet and the step between bullets. */
  const FirstBulletY: int := 180
  const BulletStep: int := 55

  // ---------------------------------------------------------------- escaping

  /** The escaping as the source writes it: three replaces, `&` first. */
  function EscapeChain(s: string): string
  {
    ReplaceAll(ReplaceAll(ReplaceAll(s, "&", "&amp;"), "<", "&lt;"), ">", "&gt;")
  }

  /** The escape of one character: the reference definition of escaping. */
  function EscapeChar(c: char): string
  {
    if c == '&' then "&amp;" else if c == '<' then "&lt;" else if c == '>' then "&gt;" else [c]
  }

  /** Escaping character by character. */
  function EscapeXml(s: string): string
  {
    if s == [] then [] else EscapeChar(s[0]) + EscapeXml(s[1..])
  }

  /** XML decoding of the three entities the builder produces. */
  function Unescape(s: string): string
    decreases |s|
  {
    if s == [] then []
    else if "&amp;" <= s then "&" + Unescape(s[5..])
    else if "&lt;" <= s then "<" + Unescape(s[4..])
    else if "&gt;" <= s then ">" + Unescape(s[4..])
    else [s[0]] + Unescape(s[1..])
  }

  function MapEntities(s: string): string
  {
    MapChar(MapChar(MapChar(s, '&', "&amp;"), '<', "&lt;"), '>', "&gt;")
  }

  lemma MapEntitiesChar(c: char)
    ensures MapEntities([c]) == EscapeChar(c)
  {
    MapCharOne(c, '&', "&amp;");
    if c == '&' {
      MapCharAbsent("&amp;", '<', "&lt;");
      MapCharAbsent("&amp;", '>', "&gt;");
    } else if c == '<' {
      MapCharOne(c, '<', "&lt;");
      MapCharAbsent("&lt;", '>', "&gt;");
    } else {
      MapCharOne(c, '<', "&lt;");
      MapCharOne(c, '>', "&gt;");
    }
  }

  lemma {:induction false} MapEntitiesIsEscapeXml(s: string)
    ensures MapEntities(s) == EscapeXml(s)
  {
    if s != [] {
      var c, t := s[0], s[1..];
      assert s == [c] + t;
      MapCharAppend([c], t, '&', "&amp;");
      MapCharAppend(MapChar([c], '&', "&amp;"), MapChar(t, '&', "&amp;"), '<', "&lt;");
      MapCharAppend(MapChar(MapChar([c], '&', "&amp;"), '<', "&lt;"),
                    MapChar(MapChar(t, '&', "&amp;"), '<', "&lt;"), '>', "&gt;");
      MapEntitiesChar(c);
      MapEntitiesIsEscapeXml(t);
    }
  }

  /**
   * Because `&` is replaced first, the three replaces escape each character
   * exactly once: the `&` of a produced `&lt;` or `&gt;` is never re-escaped.
   */
  lemma EscapeChainIsEscapeXml(s: string)
    ensures EscapeChain(s) == EscapeXml(s)
  {
    ReplaceOneChar(s, '&', "&amp;");
    ReplaceOneChar(MapChar(s, '&', "&amp;"), '<', "&lt;");
    ReplaceOneChar(MapChar(MapChar(s, '&', "&amp;"), '<', "&lt;"), '>', "&gt;");
    MapEntitiesIsEscapeXml(s);
  }

  /** Escaped text holds no raw `<` or `>`. */
  lemma {:induction false} EscapeXmlNoAngles(s: string)
    ensures forall i :: 0 <= i < |EscapeXml(s)| ==> EscapeXml(s)[i] != '<' && EscapeXml(s)[i] != '>'
  {
    if s != [] {
      EscapeXmlNoAngles(s[1..]);
      var e, rest := EscapeChar(s[0]), EscapeXml(s[1..]);
      assert EscapeXml(s) == e + rest;
      forall i | 0 <= i < |e + rest| ensures (e + rest)[i] != '<' && (e + rest)[i] != '>' {
        if i >= |e| {
          assert (e + rest)[i] == rest[i - |e|];
        }
      }
    }
  }

  /** Decoding the escaped text gives back the text: escaping loses nothing. */
  lemma {:induction false} UnescapeEscapeXml(s: string)
    ensures Unescape(EscapeXml(s)) == s
  {
    if s != [] {
      var c, t := s[0], s[1..];
      var rest := EscapeXml(t);
      UnescapeEscapeXml(t);
      assert EscapeXml(s) == EscapeChar(c) + rest;
      if c == '&' {
        assert "&amp;" <= "&amp;" + rest;
        assert ("&amp;" + rest)[5..] == rest;
      } else if c == '<' {
        assert ("&lt;" + rest)[0] == '&' && ("&lt;" + rest)[1] == 'l';
        assert "&lt;" <= "&lt;" + rest;
        assert ("&lt;" + rest)[4..] == rest;
      } else if c == '>' {
        assert ("&gt;" + rest)[1] == 'g';
        assert "&gt;" <= "&gt;" + rest;
        assert ("&gt;" + rest)[4..] == rest;
      } else {
        assert ([c] + rest)[0] == c;
        assert ([c] + rest)[1..] == rest;
      }
      assert s == [c] + t;
    }
  }

  /**
   * Why the order matters: replacing `&` last (instead of first) turns a
   * `<` into `&amp;lt;`, which a browser shows as the four characters "&lt;".
   */
  lemma AmpLastDoubleEscapes()
    ensures ReplaceAll(ReplaceAll("<", "<", "&lt;"), "&", "&amp;") == "&amp;lt;"
    ensures EscapeChain("<") == "&lt;"
  {
    assert ReplaceAll("<", "<", "&lt;") == "&lt;";
    assert "&lt;"[1..] == "lt;";
    assert "lt;"[1..] == "t;";
    assert "t;"[1..] == ";";
    assert ReplaceAll(";", "&", "&amp;") == ";";
    assert ReplaceAll("&lt;", "&", "&amp;") == "&amp;lt;";
    EscapeChainIsEscapeXml("<");
    assert EscapeXml("<") == "&lt;" + EscapeXml("<"[1..]);
  }

  // ------------------------------------------------------------------ layout

  /** One bullet as placed on the slide: circle centre, text baseline, escaped text. */
  datatype SvgBullet = SvgBullet(cy: int, textY: int, text: string)

  /** The source's truncation of one bullet, before escaping. */
  function ShortenBullet(item: string): string
  {
    if |item| > BulletWidth then item[..BulletWidth] + "..." else item
  }

  /** The bullet the loop emits for `item` when its running `y` is `y`. */
  function BulletAt(item: string, y: int): SvgBullet
  {
    SvgBullet(y + 8, y + 15, EscapeChain(ShortenBullet(item)))
  }

  /** The bullets of a slide, in input order: the first five, `y` stepping by 55 from 180. */
  function BulletLayout(content: seq<string>): seq<SvgBullet>
  {
    var items := Prefix(content, MaxBullets);
    seq(|items|, k requires 0 <= k < |items| => BulletAt(items[k], FirstBulletY + BulletStep * k))
  }

  /** The two SVG elements of one bullet. */
  function BulletSvg(b: SvgBullet): string
  {
    "    <circle cx=\"80\" cy=\"" + IntToString(b.cy) + "\" r=\"6\" fill=\"#818cf8\"/>\n"
    + "    <text x=\"100\" y=\"" + IntToString(b.textY)
    + "\" font-family=\"Arial\" font-size=\"24\" fill=\"#e0e0e0\">" + b.text + "</text>\n"
  }

  function RenderBullets(bs: seq<SvgBullet>): string
  {
    if bs == [] then "" else RenderBullets(bs[..|bs| - 1]) + BulletSvg(bs[|bs| - 1])
  }

  lemma LayoutIndex(content: seq<string>, i: nat)
    requires i < |Prefix(content, MaxBullets)|
    ensures |BulletLayout(content)| == |Prefix(content, MaxBullets)|
    ensures BulletLayout(content)[i] == BulletAt(content[i], FirstBulletY + BulletStep * i)
  {
  }

  lemma RenderBulletsSnoc(bs: seq<SvgBullet>, i: nat)
    requires i < |bs|
    ensures RenderBullets(bs[..i + 1]) == RenderBullets(bs[..i]) + BulletSvg(bs[i])
  {
    assert bs[..i + 1][..i] == bs[..i];
  }

  /**
   * Whatever the input, exactly the first min(n, 5) of its n bullets are
   * placed (none for an empty list); bullet k comes from input bullet k,
   * sits at y = 180 + 55k (circle at y+8, text at y+15), and its text decodes to the input bullet, cut to 60 characters plus "..." when
   * longer and unchanged otherwise, with no raw `<` or `>` left in it.
   */
  lemma BulletLayoutAt(content: seq<string>, k: nat)
    ensures |BulletLayout(content)| <= MaxBullets
    ensures |BulletLayout(content)| == if |content| < MaxBullets then |content| else MaxBullets
    ensures k < |BulletLayout(content)| <==> k < |content| && k < MaxBullets
    ensures k < |content| && k < MaxBullets ==>
      var b := BulletLayout(content)[k];
      && b.cy == FirstBulletY + BulletStep * k + 8
      && b.textY == FirstBulletY + BulletStep * k + 15
      && Unescape(b.text) == (if |content[k]| > BulletWidth then content[k][..BulletWidth] + "..." else content[k])
      && (forall i :: 0 <= i < |b.text| ==> b.text[i] != '<' && b.text[i] != '>')
  {
    if k < |content| && k < MaxBullets {
      var item := Prefix(content, MaxBullets)[k];
      assert item == content[k];
      EscapeChainIsEscapeXml(ShortenBullet(item));
      UnescapeEscapeXml(ShortenBullet(item));
      EscapeXmlNoAngles(ShortenBullet(item));
    }
  }

  /**
   * The title is cut to its first 40 characters before it is escaped, so
   * escaping never splits an entity and the shown text decodes to that cut.
   */
  lemma TitleText(title: string)
    ensures var clean := EscapeChain(Prefix(title, TitleWidth));
      && Unescape(clean) == (if |title| <= TitleWidth then title else title[..TitleWidth])
      && (forall i :: 0 <= i < |clean| ==> clean[i] != '<' && clean[i] != '>')
  {
    EscapeChainIsEscapeXml(Prefix(title, TitleWidth));
    UnescapeEscapeXml(Prefix(title, TitleWidth));
    EscapeXmlNoAngles(Prefix(title, TitleWidth));
  }

  // ---------------------------------------------------------------- document

  function SlideHeader(cleanTitle: string): string
  {
    "<?xml version=\"1.0\" encoding=\"UTF-8\"?>\n"
    + "<svg width=\"960\" height=\"540\" viewBox=\"0 0 960 540\" xmlns=\"http://www.w3.org/2000/svg\">\n"
    + "  <defs>\n"
    + "    <linearGradient id=\"bg\" x1=\"0%\" y1=\"0%\" x2=\"100%\" y2=\"100%\">\n"
    + "      <stop offset=\"0%\" style=\"stop-color:#1e1b4b\"/>\n"
    + "      <stop offset=\"100%\" style=\"stop-color:#312e81\"/>\n"
    + "    </linearGradient>\n"
    + "  </defs>\n"
    + "  \n"
    + "  <!-- Background -->\n"
    + "  <rect width=\"960\" height=\"540\" fill=\"url(#bg)\"/>\n"
    + "  <rect x=\"20\" y=\"20\" width=\"920\" height=\"500\" rx=\"15\" fill=\"none\" stroke=\"#4338ca\" stroke-width=\"2\"/>\n"
    + "  \n"
    + "  <!-- Title -->\n"
    + "  <rect x=\"50\" y=\"50\" width=\"860\" height=\"70\" rx=\"10\" fill=\"#4338ca\" opacity=\"0.3\"/>\n"
    + "  <text x=\"480\" y=\"100\" font-family=\"Arial\" font-size=\"32\" font-weight=\"bold\" fill=\"#ffffff\" text-anchor=\"middle\">"
    + cleanTitle + "</text>\n"
    + "  \n"
    + "  <!-- Content -->\n"
    + "  <g id=\"content\">\n"
  }

  /** The footer label "Slide n/total". */
  function FooterLabel(slideNum: int, total: int): string
  {
    "Slide " + IntToString(slideNum) + "/" + IntToString(total)
  }

  /** The bullet sign U+2022 between the brand and the slide position. */
  const BulletSign: char := 0x2022 as char

  /** The footer up to the slide position. */
  const FooterLead: string :=
    "  </g>\n"
    + "  \n"
    + "  <!-- Footer -->\n"
    + "  <text x=\"480\" y=\"510\" font-family=\"Arial\" font-size=\"16\" fill=\"#6366f1\" text-anchor=\"middle\">AetherLearn AI "
    + [BulletSign] + " "

  /** The end of the document: closing the content group, then the footer text around `position`. */
  function SlideFooter(position: string): string
  {
    FooterLead + position + "</text>\n</svg>"
  }

  /** The whole slide: header with the title, the bullet elements, the footer. */
  function SlideDocument(cleanTitle: string, contentSvg: string, slideNum: int, total: int): string
  {
    SlideHeader(cleanTitle) + contentSvg + SlideFooter(FooterLabel(slideNum, total))
  }

  /** The footer of every slide carries "Slide n/total". */
  lemma FooterShowsPosition(cleanTitle: string, contentSvg: string, slideNum: int, total: int)
    ensures Contains(SlideDocument(cleanTitle, contentSvg, slideNum, total), FooterLabel(slideNum, total))
  {
    hide SlideHeader;
    var position := FooterLabel(slideNum, total);
    ContainsMiddle(FooterLead, position, "</text>\n</svg>");
    ContainsAfter(SlideHeader(cleanTitle) + contentSvg, SlideFooter(position), position);
  }

  /**
   * The bullet loop of `generate_slide_svg`: it walks the first five bullets,
   * shortening and escaping each, emits its circle and text at the running
   * `y` and steps `y` by 55.
   */
  method BuildContentSvg(content: seq<string>) returns (contentSvg: string)
    ensures contentSvg == RenderBullets(BulletLayout(content))
  {
    contentSvg := "";
    var y := FirstBulletY;
    var items := Prefix(content, MaxBullets);
    ghost var layout := BulletLayout(content);
    var i := 0;
    while i < |items|
      invariant 0 <= i <= |items| == |layout|
      invariant y == FirstBulletY + BulletStep * i
      invariant contentSvg == RenderBullets(layout[..i])
    {
      var text := ShortenBullet(items[i]);
      text := EscapeChain(text);
      var bullet := SvgBullet(y + 8, y + 15, text);
      LayoutIndex(content, i);
      RenderBulletsSnoc(layout, i);
      contentSvg := contentSvg + BulletSvg(bullet);
      y := y + BulletStep;
      i := i + 1;
    }
    assert layout[..i] == layout;
  }

  /**
   * `generate_slide_svg`: the bullet elements, then the title cut to 40
   * characters and escaped, put into the fixed template with the footer.
   */
  method GenerateSlideSvg(title: string, content: seq<string>, slideNum: int, total: int) returns (svg: string)
    ensures svg == SlideDocument(EscapeChain(Prefix(title, TitleWidth)), RenderBullets(BulletLayout(content)), slideNum, total)
  {
    var contentSvg := BuildContentSvg(content);
    var cleanTitle := EscapeChain(Prefix(title, TitleWidth));
    svg := SlideDocument(cleanTitle, contentSvg, slideNum, total);
  }
}
