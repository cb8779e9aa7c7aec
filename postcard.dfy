/** Postcard content: the themed HTML document a custom postcard is
    rendered from, and the keyword search that picks a background picture
    URL for a gift. */
module Postcard {
  import opened Wrappers
  import opened Text

  /** One entry of the theme table. */
  datatype Decoration = Decoration(bgColor: string, emoji: string, image: string)

  const BirthdayDecoration: Decoration :=
    Decoration("#FFF5E1", "\U{1F389}\U{1F382}\U{1F388}", "https://i.imgur.com/Fn1jftF.png")
  const FriendshipDecoration: Decoration :=
    Decoration("#E6F7FF", "\U{1F917}\U{1F496}\U{2728}", "https://i.imgur.com/9xR5z7m.png")
  const LoveDecoration: Decoration :=
    Decoration("#FFE6E6", "\U{1F48C}\U{2764}\U{FE0F}\U{1F339}", "https://i.imgur.com/x1P5sB8.png")

  /** The keys of the theme table. */
  predicate IsKnownTheme(theme: string)
  {
    theme == "birthday" || theme == "friendship" || theme == "love"
  }

  /** `decorations.get(theme, decorations["birthday"])`: a case-sensitive
      lookup with the birthday entry as fallback. */
  function StyleFor(theme: string): (d: Decoration)
    ensures theme == "birthday" ==> d == BirthdayDecoration
    ensures theme == "friendship" ==> d == FriendshipDecoration
    ensures theme == "love" ==> d == LoveDecoration
    ensures !IsKnownTheme(theme) ==> d == BirthdayDecoration
  {
    if theme == "friendship" then FriendshipDecoration
    else if theme == "love" then LoveDecoration
    else BirthdayDecoration
  }

  /** The strings of `parts` one after the other. */
  function Concat(parts: seq<string>): string
  {
    if parts == [] then "" else parts[0] + Concat(parts[1..])
  }

  /** The lines of the document before the heading, each with its line
      break; the f-string starts with a line break of its own. */
  const HeadLines: seq<string> := [
    "\n",
    "    <html>\n",
    "    <head>\n",
    "      <link href=\"https://fonts.googleapis.com/css2?family=Quicksand:wght@500&display=swap\" rel=\"stylesheet\">\n",
    "      <style>\n",
    "        body {\n",
    "          font-family: 'Quicksand', sans-serif;\n",
    "          background: linear-gradient(to bottom right, #fceabb, #f8b500);\n",
    "          width: 600px;\n",
    "          height: 400px;\n",
    "          position: relative;\n",
    "          padding: 40px;\n",
    "          box-sizing: border-box;\n",
    "          display: flex;\n",
    "          flex-direction: column;\n",
    "          align-items: center;\n",
    "          justify-content: center;\n",
    "          text-align: center;\n",
    "        }\n",
    "        .image-decor {\n",
    "          position: absolute;\n",
    "          top: 0;\n",
    "          left: 0;\n",
    "          width: 600px;\n",
    "          height: 400px;\n",
    "          opacity: 0.2;\n",
    "          z-index: 0;\n",
    "        }\n",
    "        .content {\n",
    "          z-index: 1;\n",
    "        }\n",
    "        h1 {\n",
    "          font-size: 28px;\n",
    "          margin-bottom: 10px;\n",
    "        }\n",
    "        p {\n",
    "          font-size: 18px;\n",
    "          color: #333;\n",
    "        }\n",
    "      </style>\n",
    "    </head>\n",
    "    <body>\n",
    "      <div class=\"content\">\n"]

  /** The fixed text of the document up to the emoji of the heading. */
  const PageHead: string := Concat(HeadLines) + "        <h1>"

  /** The lines of the document after the message. */
  const TailLines: seq<string> := [
    "</p>\n",
    "        <p style=\"margin-top: 20px;\">From your Giftie app \U{1F381}</p>\n",
    "      </div>\n",
    "    </body>\n",
    "    </html>\n"]

  /** The fixed text of the document after the message. */
  const PageTail: string := Concat(TailLines) + "    "

  /** The fixed text of a postcard document around its three inserted
      strings: the emoji, the recipient and the message. */
  datatype Template = Template(head: string, beforeRecipient: string, beforeMessage: string, tail: string)

  /** The template of `get_styled_html`. */
  const CardTemplate: Template := Template(PageHead, " Dear ", ",</h1>\n        <p>", PageTail)

  /** The document of template `t` with the three strings inserted. */
  function Fill(t: Template, emoji: string, recipient: string, message: string): (html: string)
    ensures t.head <= html
    ensures OccursAt(emoji, html, |t.head|)
    ensures OccursAt(recipient, html, |t.head| + |emoji| + |t.beforeRecipient|)
    ensures OccursAt(message, html, |t.head| + |emoji| + |t.beforeRecipient| + |recipient| + |t.beforeMessage|)
    ensures |html| == |t.head| + |emoji| + |t.beforeRecipient| + |recipient| + |t.beforeMessage| + |message| + |t.tail|
    ensures html[|html| - |t.tail|..] == t.tail
  {
    var html := t.head + emoji + t.beforeRecipient + recipient + t.beforeMessage + message + t.tail;
    var r := |t.head| + |emoji| + |t.beforeRecipient|;
    var m := r + |recipient| + |t.beforeMessage|;
    assert html[..|t.head|] == t.head;
    assert html[|t.head|..|t.head| + |emoji|] == emoji;
    assert html[r..r + |recipient|] == recipient;
    assert html[m..m + |message|] == message;
    assert html[|html| - |t.tail|..] == t.tail;
    html
  }

  /** The three inserted strings occur in the filled document. */
  lemma FillContains(t: Template, emoji: string, recipient: string, message: string)
    ensures Occurs(emoji, Fill(t, emoji, recipient, message))
    ensures Occurs(recipient, Fill(t, emoji, recipient, message))
    ensures Occurs(message, Fill(t, emoji, recipient, message))
  {
    var html := Fill(t, emoji, recipient, message);
    OccursIff(emoji, html);
    OccursIff(recipient, html);
    OccursIff(message, html);
  }

  /** With the template, emoji and recipient fixed, the message can be read
      back from the document. */
  lemma FillMessageInjective(t: Template, emoji: string, recipient: string, m1: string, m2: string)
    requires Fill(t, emoji, recipient, m1) == Fill(t, emoji, recipient, m2)
    ensures m1 == m2
  {
    var html := Fill(t, emoji, recipient, m1);
    var at := |t.head| + |emoji| + |t.beforeRecipient| + |recipient| + |t.beforeMessage|;
    assert m1 == html[at..at + |m1|];
    assert m2 == html[at..at + |m2|];
  }

  /** Emoji strings that start differently give different documents. */
  lemma FillEmojiVisible(t: Template, e1: string, e2: string, recipient: string, message: string)
    requires e1 != [] && e2 != [] && e1[0] != e2[0]
    ensures Fill(t, e1, recipient, message) != Fill(t, e2, recipient, message)
  {
    var h1 := Fill(t, e1, recipient, message);
    var h2 := Fill(t, e2, recipient, message);
    assert h1[|t.head|] == h1[|t.head|..|t.head| + |e1|][0] == e1[0];
    assert h2[|t.head|] == h2[|t.head|..|t.head| + |e2|][0] == e2[0];
  }

  /** The f-string of `get_styled_html` with the decoration already chosen:
      of the decoration only the emoji is used. */
  function RenderCard(recipient: string, message: string, style: Decoration): (html: string)
    ensures CardTemplate.head <= html
    ensures Occurs(style.emoji, html) && Occurs(recipient, html) && Occurs(message, html)
  {
    FillContains(CardTemplate, style.emoji, recipient, message);
    Fill(CardTemplate, style.emoji, recipient, message)
  }

  /** `get_styled_html`: the document starts with the fixed head and holds
      the selected theme's emoji, the recipient and the message verbatim. */
  function StyledHtml(recipient: string, message: string, theme: string := "birthday"): (html: string)
    ensures CardTemplate.head <= html
    ensures Occurs(StyleFor(theme).emoji, html)
    ensures Occurs(recipient, html)
    ensures Occurs(message, html)
  {
    RenderCard(recipient, message, StyleFor(theme))
  }

  /** Any theme other than exactly "birthday", "friendship" or "love" (no
      case folding) gives the birthday document. */
  lemma UnknownThemeIsBirthday(recipient: string, message: string, theme: string)
    requires !IsKnownTheme(theme)
    ensures StyledHtml(recipient, message, theme) == StyledHtml(recipient, message, "birthday")
  {
  }

  /** The background colour and the image of a decoration never reach the
      document: decorations with the same emoji give the same document. */
  lemma OnlyEmojiMatters(recipient: string, message: string, d1: Decoration, d2: Decoration)
    requires d1.emoji == d2.emoji
    ensures RenderCard(recipient, message, d1) == RenderCard(recipient, message, d2)
  {
  }

  /** The message is inserted unaltered: for a fixed recipient and theme,
      different messages give different documents. */
  lemma MessageDeterminesHtml(recipient: string, m1: string, m2: string, theme: string)
    requires StyledHtml(recipient, m1, theme) == StyledHtml(recipient, m2, theme)
    ensures m1 == m2
  {
    FillMessageInjective(CardTemplate, StyleFor(theme).emoji, recipient, m1, m2);
  }

  /** The three known themes give three different documents. */
  lemma KnownThemesDiffer(recipient: string, message: string, t1: string, t2: string)
    requires IsKnownTheme(t1) && IsKnownTheme(t2) && t1 != t2
    ensures StyledHtml(recipient, message, t1) != StyledHtml(recipient, message, t2)
  {
    var e1, e2 := StyleFor(t1).emoji, StyleFor(t2).emoji;
    assert e1[0] != e2[0] by {
      assert BirthdayDecoration.emoji[0] == '\U{1F389}';
      assert FriendshipDecoration.emoji[0] == '\U{1F917}';
      assert LoveDecoration.emoji[0] == '\U{1F48C}';
    }
    FillEmojiVisible(CardTemplate, e1, e2, recipient, message);
  }

  /** Every background URL starts with this. */
  const UnsplashBase: string := "https://source.unsplash.com/1200x800/?"

  /** The keyword table of `get_unsplash_background`, in its listed order. */
  const Keywords: seq<(string, string)> := [
    ("birthday", "birthday"),
    ("chocolate", "dessert"),
    ("flowers", "flowers"),
    ("book", "reading"),
    ("coffee", "coffee"),
    ("love", "romantic"),
    ("jewellery", "luxury")]

  /** Keyword `k` is the first one, in table order, that occurs in `lowered`. */
  ghost predicate IsFirstMatch(lowered: string, k: int)
  {
    0 <= k < |Keywords| && Occurs(Keywords[k].0, lowered) &&
    forall j :: 0 <= j < k ==> !Occurs(Keywords[j].0, lowered)
  }

  /** No keyword at all occurs in `lowered`. */
  ghost predicate NoKeyword(lowered: string)
  {
    forall j :: 0 <= j < |Keywords| ==> !Occurs(Keywords[j].0, lowered)
  }

  /** The index of the first keyword at or after `from` that occurs in `lowered`. */
  function FirstMatchFrom(lowered: string, from: nat): (r: Option<nat>)
    requires from <= |Keywords|
    ensures r.Some? ==> from <= r.value < |Keywords| && Occurs(Keywords[r.value].0, lowered)
    ensures r.Some? ==> forall j :: from <= j < r.value ==> !Occurs(Keywords[j].0, lowered)
    ensures r.None? ==> forall j :: from <= j < |Keywords| ==> !Occurs(Keywords[j].0, lowered)
    decreases |Keywords| - from
  {
    if from == |Keywords| then None
    else if Occurs(Keywords[from].0, lowered) then Some(from)
    else FirstMatchFrom(lowered, from + 1)
  }

  /** The URL `get_unsplash_background` returns: the theme of the first
      keyword that occurs in the lower-cased gift, or "gift" when none does. */
  function BackgroundFor(gift: string): (url: string)
    ensures UnsplashBase <= url
    ensures forall k :: IsFirstMatch(Lower(gift), k) ==> url == UnsplashBase + Keywords[k].1
    ensures NoKeyword(Lower(gift)) ==> url == UnsplashBase + "gift"
  {
    match FirstMatchFrom(Lower(gift), 0)
    case Some(k) => UnsplashBase + Keywords[k].1
    case None => UnsplashBase + "gift"
  }

  /** Exactly one of the two cases of `BackgroundFor` applies, and the first
      match, when there is one, is unique. */
  lemma {:induction false} FirstMatchOrNone(lowered: string)
    ensures NoKeyword(lowered) || exists k :: IsFirstMatch(lowered, k)
    ensures forall k1, k2 :: IsFirstMatch(lowered, k1) && IsFirstMatch(lowered, k2) ==> k1 == k2
    ensures NoKeyword(lowered) ==> forall k :: !IsFirstMatch(lowered, k)
  {
    match FirstMatchFrom(lowered, 0)
    case Some(k) => assert IsFirstMatch(lowered, k);
    case None =>
  }

  /** `get_unsplash_background`: the ordered search with an early return. */
  method UnsplashBackground(gift: string) returns (url: string)
    ensures url == BackgroundFor(gift)
  {
    var lowered := Lower(gift);
    for i := 0 to |Keywords|
      invariant forall j :: 0 <= j < i ==> !Occurs(Keywords[j].0, lowered)
    {
      var (keyword, theme) := Keywords[i];
      if Occurs(keyword, lowered) {
        assert IsFirstMatch(lowered, i);
        return UnsplashBase + theme;
      }
    }
    return UnsplashBase + "gift";
  }
}
