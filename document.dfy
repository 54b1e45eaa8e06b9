/**
 * The crawler page `generateBotHTML`: a document built by plain
 * concatenation, every value interpolated verbatim (no escaping).
 */
module Document {
  import opened Text
  import opened Classifier

  /** `<meta property="{name}" content="{content}">` */
  function MetaProperty(name: string, content: string): string {
    "<meta property=\"" + name + "\" content=\"" + content + "\">"
  }

  /** `<meta name="{name}" content="{content}">` */
  function MetaName(name: string, content: string): string {
    "<meta name=\"" + name + "\" content=\"" + content + "\">"
  }

  /** The fixed style sheet of the page; no value is interpolated into it. */
  const StyleBlock: string :=
    "    <style>\n"
    + "        body {\n"
    + "            font-family: -apple-system, BlinkMacSystemFont, 'Segoe UI', Roboto, sans-serif;\n"
    + "            max-width: 800px;\n"
    + "            margin: 0 auto;\n"
    + "            padding: 40px 20px;\n"
    + "            background: linear-gradient(135deg, #667eea 0%, #764ba2 100%);\n"
    + "            color: white;\n"
    + "            min-height: 100vh;\n"
    + "        }\n"
    + "        .container {\n"
    + "            background: rgba(255, 255, 255, 0.1);\n"
    + "            padding: 40px;\n"
    + "            border-radius: 20px;\n"
    + "            backdrop-filter: blur(10px);\n"
    + "            text-align: center;\n"
    + "        }\n"
    + "        .og-image {\n"
    + "            max-width: 100%;\n"
    + "            height: auto;\n"
    + "            border-radius: 10px;\n"
    + "            margin: 20px 0;\n"
    + "            box-shadow: 0 10px 30px rgba(0,0,0,0.3);\n"
    + "        }\n"
    + "        .meta-info {\n"
    + "            background: rgba(255, 255, 255, 0.1);\n"
    + "            padding: 20px;\n"
    + "            border-radius: 10px;\n"
    + "            margin: 20px 0;\n"
    + "            text-align: left;\n"
    + "        }\n"
    + "        .react-link {\n"
    + "            display: inline-block;\n"
    + "            background: #1da1f2;\n"
    + "            color: white;\n"
    + "            padding: 15px 30px;\n"
    + "            text-decoration: none;\n"
    + "            border-radius: 25px;\n"
    + "            margin-top: 20px;\n"
    + "            transition: background 0.3s ease;\n"
    + "        }\n"
    + "        .react-link:hover {\n"
    + "            background: #0d8bd9;\n"
    + "        }\n"
    + "    </style>\n"

  /** The footer line that reports the case-sensitive "bot" test. */
  function DetectionLine(userAgent: string): string {
    "<p>\U{1F916} Bot Detection: " + DetectionLabel(userAgent) + "</p>"
  }

  /** The start of the page, up to and including the `<title>` line. */
  function ProloguePieces(title: string): seq<string>
  {
    [ "\n<!DOCTYPE html>\n<html lang=\"en\">\n<head>\n",
      "    ", "<meta charset=\"UTF-8\">", "\n",
      "    ", "<meta name=\"viewport\" content=\"width=device-width, initial-scale=1.0\">", "\n",
      "    ", "<title>" + title + "</title>", "\n"
    ]
  }

  /** The body of the page: the same values shown as text, and the request's User-Agent. */
  function BodyPieces(title: string, description: string, ogImage: string, currentUrl: string,
                      username: string, id: string, userAgent: string): seq<string>
  {
    [ "</head>\n<body>\n    <div class=\"container\">\n",
      "        <h1>", title, "</h1>\n",
      "        <p><strong>Username:</strong> ", username, "</p>\n",
      "        <p><strong>ID:</strong> ", id, "</p>\n",
      "        \n",
      "        <img src=\"", ogImage, "\" alt=\"", title, "\" class=\"og-image\">\n",
      "        \n",
      "        <div class=\"meta-info\">\n",
      "            <h3>\U{1F50D} OG Meta Information</h3>\n",
      "            <p><strong>Title:</strong> ", title, "</p>\n",
      "            <p><strong>Description:</strong> ", description, "</p>\n",
      "            <p><strong>Image URL:</strong> ", ogImage, "</p>\n",
      "            <p><strong>Page URL:</strong> ", currentUrl, "</p>\n",
      "        </div>\n",
      "        <p>This page is optimized for social media sharing with proper Open Graph tags.</p>\n",
      "        <a href=\"/\" class=\"react-link\">\U{1F680} Go to React Testing App</a>\n",
      "        <div style=\"margin-top: 30px; font-size: 0.9em; opacity: 0.8;\">\n",
      "            ", DetectionLine(userAgent), "\n",
      "            <p>\U{1F464} User Agent: ", userAgent, "</p>\n",
      "        </div>\n    </div>\n</body>\n</html>\n  "
    ]
  }

  /**
   * The social-card tags of the head, in order, each with its value verbatim:
   * the card fields taken from the resolved metadata and the page URL, and
   * the constant tags.
   */
  function CardTags(title: string, description: string, image: string, url: string): seq<string>
  {
    [ MetaProperty("og:title", title),
      MetaProperty("og:description", description),
      MetaProperty("og:image", image),
      MetaProperty("og:url", url),
      MetaProperty("og:type", "website"),
      MetaProperty("og:site_name", "Twitter OG Test"),
      MetaName("twitter:card", "summary_large_image"),
      MetaName("twitter:title", title),
      MetaName("twitter:description", description),
      MetaName("twitter:image", image),
      MetaName("description", description),
      MetaName("robots", "index, follow")
    ]
  }

  /** Each tag on a line of its own, indented by four spaces. */
  function TagLines(tags: seq<string>): string {
    if tags == [] then "" else "    " + tags[0] + "\n" + TagLines(tags[1..])
  }

  /** Every tag occurs verbatim in its rendering. */
  lemma {:induction false} TagLinesCarry(tags: seq<string>)
    ensures forall k :: 0 <= k < |tags| ==> Occurs(tags[k], TagLines(tags))
  {
    if tags != [] {
      TagLinesCarry(tags[1..]);
      var line := "    " + tags[0] + "\n";
      assert TagLines(tags) == line + TagLines(tags[1..]);
      assert OccursAt(tags[0], line, 4);
      forall k | 0 <= k < |tags| ensures Occurs(tags[k], TagLines(tags)) {
        if k == 0 {
          OccursInConcat(tags[0], line, TagLines(tags[1..]));
        } else {
          assert tags[k] == tags[1..][k - 1];
          OccursInConcat(tags[k], line, TagLines(tags[1..]));
        }
      }
    }
  }

  /** The page carries its `<title>` element, every card tag and the footer's detection line. */
  ghost predicate CarriesCard(html: string, title: string, description: string, image: string,
                              url: string, userAgent: string)
  {
    var tags := CardTags(title, description, image, url);
    && Occurs("<title>" + title + "</title>", html)
    && (forall k :: 0 <= k < |tags| ==> Occurs(tags[k], html))
    && Occurs(DetectionLine(userAgent), html)
  }

  /**
   * `generateBotHTML({ title, description, ogImage, currentUrl, username, id, userAgent })`:
   * the prologue with the `<title>`, the card tags, the style sheet, then the body.
   */
  function GenerateBotHtml(title: string, description: string, ogImage: string, currentUrl: string,
                           username: string, id: string, userAgent: string): (html: string)
    ensures CarriesCard(html, title, description, ogImage, currentUrl, userAgent)
  {
    var prologue := Concat(ProloguePieces(title));
    var tags := TagLines(CardTags(title, description, ogImage, currentUrl));
    var body := Concat(BodyPieces(title, description, ogImage, currentUrl, username, id, userAgent));
    PageCarriesCard(prologue, tags, StyleBlock, body, title, description, ogImage, currentUrl, username, id, userAgent);
    prologue + (tags + ("    \n" + (StyleBlock + body)))
  }

  /** The parts of the page put their tags into the whole page, whatever the style sheet. */
  lemma PageCarriesCard(prologue: string, tagLines: string, style: string, body: string, title: string, description: string,
                        ogImage: string, currentUrl: string, username: string, id: string, userAgent: string)
    requires prologue == Concat(ProloguePieces(title))
    requires tagLines == TagLines(CardTags(title, description, ogImage, currentUrl))
    requires body == Concat(BodyPieces(title, description, ogImage, currentUrl, username, id, userAgent))
    ensures CarriesCard(prologue + (tagLines + ("    \n" + (style + body))),
                        title, description, ogImage, currentUrl, userAgent)
  {
    var rest := "    \n" + (style + body);
    var html := prologue + (tagLines + rest);
    PrologueCarriesTitle(title, tagLines + rest);

    var tags := CardTags(title, description, ogImage, currentUrl);
    TagLinesCarry(tags);
    forall k | 0 <= k < |tags| ensures Occurs(tags[k], html) {
      OccursInConcat(tags[k], tagLines, rest);
      OccursInConcat(tags[k], prologue, tagLines + rest);
    }

    BodyCarriesDetection(title, description, ogImage, currentUrl, username, id, userAgent);
    OccursInConcat(DetectionLine(userAgent), style, body);
    OccursInConcat(DetectionLine(userAgent), "    \n", style + body);
    OccursInConcat(DetectionLine(userAgent), tagLines, rest);
    OccursInConcat(DetectionLine(userAgent), prologue, tagLines + rest);
  }

  /** The prologue holds the `<title>` element, whatever follows it. */
  lemma PrologueCarriesTitle(title: string, rest: string)
    ensures Occurs("<title>" + title + "</title>", Concat(ProloguePieces(title)) + rest)
  {
    var pieces := ProloguePieces(title);
    PieceOccurs(pieces, 8);
    OccursInConcat(pieces[8], Concat(pieces), rest);
  }

  /** The body holds the footer's detection line. */
  lemma BodyCarriesDetection(title: string, description: string, ogImage: string, currentUrl: string,
                             username: string, id: string, userAgent: string)
    ensures Occurs(DetectionLine(userAgent),
                   Concat(BodyPieces(title, description, ogImage, currentUrl, username, id, userAgent)))
  {
    PieceOccurs(BodyPieces(title, description, ogImage, currentUrl, username, id, userAgent), 36);
  }

  /** A page carrying a card shows its image both as `og:image` and as `twitter:image`. */
  lemma CardShowsImage(html: string, title: string, description: string, image: string, url: string, userAgent: string)
    requires CarriesCard(html, title, description, image, url, userAgent)
    ensures Occurs(MetaProperty("og:image", image), html)
    ensures Occurs(MetaName("twitter:image", image), html)
  {
    var tags := CardTags(title, description, image, url);
    assert tags[2] == MetaProperty("og:image", image);
    assert tags[9] == MetaName("twitter:image", image);
  }
}
