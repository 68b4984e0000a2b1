/** The HTML e-mail builder of lib/email-template.js: escaping, text
    clean-up, truncation, the per-item card, the per-section block and the
    whole document. Template fragments are kept verbatim as constants,
    indentation and line breaks included. */
module EmailTemplate {
  import opened Lists
  import opened Strings
  import opened Feed

  // ---------------------------------------------------------------------
  // Escaping

  /** `s.replace(/c/g, rep)`. */
  function ReplaceAll(s: string, c: char, rep: string): (r: string)
  {
    if s == [] then [] else (if s[0] == c then rep else [s[0]]) + ReplaceAll(s[1..], c, rep)
  }

  /** `escapeHtml`: the five replacements, ampersand first. */
  function EscapeHtml(s: string): string
  {
    ReplaceAll(ReplaceAll(ReplaceAll(ReplaceAll(ReplaceAll(s, '&', "&amp;"), '<', "&lt;"), '>', "&gt;"), '"', "&quot;"), '\'', "&#39;")
  }

  /** The entity one character becomes. */
  function EscapeChar(c: char): string
  {
    if c == '&' then "&amp;"
    else if c == '<' then "&lt;"
    else if c == '>' then "&gt;"
    else if c == '"' then "&quot;"
    else if c == '\'' then "&#39;"
    else [c]
  }

  /** Reference definition: each character escaped on its own. */
  function EscapeChars(s: string): string
  {
    if s == [] then [] else EscapeChar(s[0]) + EscapeChars(s[1..])
  }

  /** No character that could open or close a tag or an attribute value. */
  predicate HtmlSafe(t: string)
  {
    forall i :: 0 <= i < |t| ==> t[i] != '<' && t[i] != '>' && t[i] != '"' && t[i] != '\''
  }

  /** The inverse of escaping: the five entities decoded, left to right. */
  function Unescape(t: string): string
  {
    if t == [] then []
    else if "&amp;" <= t then "&" + Unescape(t[5..])
    else if "&lt;" <= t then "<" + Unescape(t[4..])
    else if "&gt;" <= t then ">" + Unescape(t[4..])
    else if "&quot;" <= t then "\"" + Unescape(t[6..])
    else if "&#39;" <= t then "'" + Unescape(t[5..])
    else [t[0]] + Unescape(t[1..])
  }

  lemma {:induction false} ReplaceAllAppend(a: string, b: string, c: char, rep: string)
    ensures ReplaceAll(a + b, c, rep) == ReplaceAll(a, c, rep) + ReplaceAll(b, c, rep)
  {
    if a == [] {
      assert a + b == b;
    } else {
      assert (a + b)[1..] == a[1..] + b;
      ReplaceAllAppend(a[1..], b, c, rep);
    }
  }

  lemma {:induction false} ReplaceAllAbsent(s: string, c: char, rep: string)
    requires c !in s
    ensures ReplaceAll(s, c, rep) == s
  {
    if s != [] {
      ReplaceAllAbsent(s[1..], c, rep);
    }
  }

  /** Because every replacement text is free of the characters replaced
      after it, the chain of replacements escapes each character on its own. */
  lemma {:induction false} EscapeHtmlPerChar(s: string)
    ensures EscapeHtml(s) == EscapeChars(s)
  {
    if s != [] {
      var c := s[0];
      var rest := s[1..];
      assert s == [c] + rest;
      EscapeHtmlAppend([c], rest);
      EscapeOneChar(c);
      EscapeHtmlPerChar(rest);
    }
  }

  /** Escaping works piece by piece. */
  lemma EscapeHtmlAppend(a: string, b: string)
    ensures EscapeHtml(a + b) == EscapeHtml(a) + EscapeHtml(b)
  {
    var a1, b1 := ReplaceAll(a, '&', "&amp;"), ReplaceAll(b, '&', "&amp;");
    ReplaceAllAppend(a, b, '&', "&amp;");
    var a2, b2 := ReplaceAll(a1, '<', "&lt;"), ReplaceAll(b1, '<', "&lt;");
    ReplaceAllAppend(a1, b1, '<', "&lt;");
    var a3, b3 := ReplaceAll(a2, '>', "&gt;"), ReplaceAll(b2, '>', "&gt;");
    ReplaceAllAppend(a2, b2, '>', "&gt;");
    var a4, b4 := ReplaceAll(a3, '"', "&quot;"), ReplaceAll(b3, '"', "&quot;");
    ReplaceAllAppend(a3, b3, '"', "&quot;");
    ReplaceAllAppend(a4, b4, '\'', "&#39;");
  }

  lemma ReplaceAllSingle(c: char, x: char, rep: string)
    ensures ReplaceAll([c], x, rep) == if c == x then rep else [c]
  {
    assert [c][1..] == [];
  }

  lemma EscapeOneChar(c: char)
    ensures EscapeHtml([c]) == EscapeChar(c)
  {
    if c == '&' { EscapeAmpersand(); }
    else if c == '<' { EscapeLess(); }
    else if c == '>' { EscapeGreater(); }
    else if c == '"' { EscapeQuote(); }
    else if c == '\'' { EscapeApostrophe(); }
    else { EscapePlainChar(c); }
  }

  lemma EscapeAmpersand()
    ensures EscapeHtml("&") == "&amp;"
  {
    var amp := "&amp;";
    ReplaceAllSingle('&', '&', amp);
    assert ReplaceAll("&", '&', amp) == amp;
    assert '<' !in amp && '>' !in amp && '"' !in amp && '\'' !in amp;
    ReplaceAllAbsent(amp, '<', "&lt;");
    ReplaceAllAbsent(amp, '>', "&gt;");
    ReplaceAllAbsent(amp, '"', "&quot;");
    ReplaceAllAbsent(amp, '\'', "&#39;");
  }

  lemma EscapeLess()
    ensures EscapeHtml("<") == "&lt;"
  {
    var lt := "&lt;";
    ReplaceAllSingle('<', '&', "&amp;");
    ReplaceAllSingle('<', '<', lt);
    assert ReplaceAll(ReplaceAll("<", '&', "&amp;"), '<', lt) == lt;
    assert '>' !in lt && '"' !in lt && '\'' !in lt;
    ReplaceAllAbsent("&lt;", '>', "&gt;");
    ReplaceAllAbsent("&lt;", '"', "&quot;");
    ReplaceAllAbsent("&lt;", '\'', "&#39;");
  }

  lemma EscapeGreater()
    ensures EscapeHtml(">") == "&gt;"
  {
    ReplaceAllSingle('>', '&', "&amp;");
    ReplaceAllSingle('>', '<', "&lt;");
    ReplaceAllSingle('>', '>', "&gt;");
    ReplaceAllAbsent("&gt;", '"', "&quot;");
    ReplaceAllAbsent("&gt;", '\'', "&#39;");
  }

  lemma EscapeQuote()
    ensures EscapeHtml("\"") == "&quot;"
  {
    ReplaceAllSingle('"', '&', "&amp;");
    ReplaceAllSingle('"', '<', "&lt;");
    ReplaceAllSingle('"', '>', "&gt;");
    ReplaceAllSingle('"', '"', "&quot;");
    ReplaceAllAbsent("&quot;", '\'', "&#39;");
  }

  lemma EscapeApostrophe()
    ensures EscapeHtml("'") == "&#39;"
  {
    ReplaceAllSingle('\'', '&', "&amp;");
    ReplaceAllSingle('\'', '<', "&lt;");
    ReplaceAllSingle('\'', '>', "&gt;");
    ReplaceAllSingle('\'', '"', "&quot;");
    ReplaceAllSingle('\'', '\'', "&#39;");
  }

  lemma EscapePlainChar(c: char)
    requires c !in "&<>\"'"
    ensures EscapeHtml([c]) == [c]
  {
    ReplaceAllSingle(c, '&', "&amp;");
    ReplaceAllSingle(c, '<', "&lt;");
    ReplaceAllSingle(c, '>', "&gt;");
    ReplaceAllSingle(c, '"', "&quot;");
    ReplaceAllSingle(c, '\'', "&#39;");
  }

  /** Decoding undoes the escaping of one character. */
  lemma UnescapeStep(c: char, rest: string)
    ensures Unescape(EscapeChar(c) + rest) == [c] + Unescape(rest)
  {
    var t := EscapeChar(c) + rest;
    if c == '&' {
      assert "&amp;" <= t && t[5..] == rest;
    } else if c == '<' {
      assert t[1] == 'l' && "&lt;" <= t && t[4..] == rest;
    } else if c == '>' {
      assert t[1] == 'g' && "&gt;" <= t && t[4..] == rest;
    } else if c == '"' {
      assert t[1] == 'q' && "&quot;" <= t && t[6..] == rest;
    } else if c == '\'' {
      assert t[1] == '#' && "&#39;" <= t && t[5..] == rest;
    } else {
      assert t[0] == c && t[1..] == rest;
    }
  }

  /** Escaped text is tag-safe and decodes back to the original. */
  lemma {:induction false} EscapeCharsProperties(s: string)
    ensures HtmlSafe(EscapeChars(s))
    ensures Unescape(EscapeChars(s)) == s
  {
    if s != [] {
      var c := s[0];
      var e := EscapeChar(c);
      var rest := EscapeChars(s[1..]);
      EscapeCharsProperties(s[1..]);
      assert e + rest == EscapeChars(s);
      EscapeCharSafe(c);
      HtmlSafeAppend(e, rest);
      UnescapeStep(c, rest);
      assert s == [c] + s[1..];
    }
  }

  lemma EscapeCharSafe(c: char)
    ensures HtmlSafe(EscapeChar(c))
  {
  }

  lemma HtmlSafeAppend(a: string, b: string)
    requires HtmlSafe(a) && HtmlSafe(b)
    ensures HtmlSafe(a + b)
  {
    var t := a + b;
    forall i | 0 <= i < |t| ensures t[i] != '<' && t[i] != '>' && t[i] != '"' && t[i] != '\'' {
      if i >= |a| { assert t[i] == b[i - |a|]; }
    }
  }

  /** `escapeHtml` output cannot open a tag or leave an attribute value,
      and decoding the five entities gives the input back. */
  lemma EscapeHtmlProperties(s: string)
    ensures HtmlSafe(EscapeHtml(s))
    ensures Unescape(EscapeHtml(s)) == s
    ensures EscapeHtml(s) == "" <==> s == ""
  {
    EscapeHtmlPerChar(s);
    EscapeCharsProperties(s);
  }

  /** Escaping loses nothing: distinct texts stay distinct. */
  lemma EscapeHtmlInjective(a: string, b: string)
    requires EscapeHtml(a) == EscapeHtml(b)
    ensures a == b
  {
    EscapeHtmlProperties(a);
    EscapeHtmlProperties(b);
  }

  // ---------------------------------------------------------------------
  // Plain-text helpers

  /** `s.replace(/<[^>]*>/g, " ")`: every `<` that has a `>` after it starts
      a tag that runs to the first such `>` and becomes one space; a `<`
      with no `>` after it stays. */
  function ReplaceTags(s: string): (r: string)
    decreases |s|
  {
    if s == [] then []
    else if s[0] == '<' && '>' in s[1..] then " " + ReplaceTags(AfterFirst(s[1..], '>'))
    else [s[0]] + ReplaceTags(s[1..])
  }

  /** The text after the first occurrence of `c`. */
  function AfterFirst(s: string, c: char): (r: string)
    requires c in s
    ensures |r| < |s| && r == s[|s| - |r|..]
  {
    if s[0] == c then s[1..] else AfterFirst(s[1..], c)
  }

  /** `stripHtml`: tags become spaces, whitespace runs collapse, ends are
      trimmed. */
  function StripHtml(s: string): (r: string)
  {
    NormalizeSpace(ReplaceTags(s))
  }

  /** No `<` is followed, anywhere later, by a `>`: nothing tag-shaped. */
  predicate NoTag(t: string)
  {
    forall i, j :: 0 <= i < j < |t| && t[i] == '<' ==> t[j] != '>'
  }

  lemma {:induction false} ReplaceTagsKeepsChars(s: string, c: char)
    requires c != ' '
    ensures c in ReplaceTags(s) ==> c in s
    decreases |s|
  {
    if s == [] {
    } else if s[0] == '<' && '>' in s[1..] {
      var t := AfterFirst(s[1..], '>');
      ReplaceTagsKeepsChars(t, c);
      if c in t {
        var k :| 0 <= k < |t| && t[k] == c;
        assert s[|s| - |t| + k] == c;
      }
    } else if c != s[0] {
      ReplaceTagsKeepsChars(s[1..], c);
    }
  }

  lemma {:induction false} ReplaceTagsNoTag(s: string)
    ensures NoTag(ReplaceTags(s))
    decreases |s|
  {
    if s != [] {
      var r := ReplaceTags(s);
      if s[0] == '<' && '>' in s[1..] {
        ReplaceTagsNoTag(AfterFirst(s[1..], '>'));
        assert r[1..] == ReplaceTags(AfterFirst(s[1..], '>'));
      } else {
        ReplaceTagsNoTag(s[1..]);
        var rest := ReplaceTags(s[1..]);
        assert r[1..] == rest;
        ReplaceTagsKeepsChars(s[1..], '>');
        forall i, j | 0 <= i < j < |r| && r[i] == '<' ensures r[j] != '>' {
          if i == 0 {
            assert r[j] == rest[j - 1];
          } else {
            assert r[i] == rest[i - 1] && r[j] == rest[j - 1];
          }
        }
      }
    }
  }

  lemma {:induction false} CollapseSpacesKeepsChars(s: string, c: char)
    requires !IsSpace(c)
    ensures c in CollapseSpaces(s) ==> c in s
    decreases |s|
  {
    if s == [] {
    } else if IsSpace(s[0]) {
      var t := TrimStart(s);
      TrimStartSuffix(s);
      CollapseSpacesKeepsChars(t, c);
      if c in t {
        var k :| 0 <= k < |t| && t[k] == c;
        assert s[|s| - |t| + k] == c;
      }
    } else if c != s[0] {
      CollapseSpacesKeepsChars(s[1..], c);
    }
  }

  lemma {:induction false} CollapseSpacesNoTag(s: string)
    requires NoTag(s)
    ensures NoTag(CollapseSpaces(s))
    decreases |s|
  {
    if s != [] {
      var t := if IsSpace(s[0]) then TrimStart(s) else s[1..];
      TrimStartSuffix(s);
      assert t == s[|s| - |t|..|s|];
      NoTagSlice(s, |s| - |t|, |s|);
      CollapseSpacesNoTag(t);
      var x := if IsSpace(s[0]) then ' ' else s[0];
      assert CollapseSpaces(s) == [x] + CollapseSpaces(t);
      if x == '<' {
        assert '>' !in t by {
          forall k | 0 <= k < |t| ensures t[k] != '>' {
            assert t[k] == s[k + 1];
          }
        }
        CollapseSpacesKeepsChars(t, '>');
      }
      NoTagCons(x, CollapseSpaces(t));
    }
  }

  /** A character in front of tag-free text keeps it tag-free unless it
      opens a tag that the text closes. */
  lemma NoTagCons(x: char, rest: string)
    requires NoTag(rest)
    requires x == '<' ==> '>' !in rest
    ensures NoTag([x] + rest)
  {
    var r := [x] + rest;
    forall i, j | 0 <= i < j < |r| && r[i] == '<' ensures r[j] != '>' {
      if i == 0 {
        assert r[j] == rest[j - 1];
      } else {
        assert r[i] == rest[i - 1] && r[j] == rest[j - 1];
      }
    }
  }

  lemma NoTagSlice(c: string, i: nat, j: nat)
    requires NoTag(c) && i <= j <= |c|
    ensures NoTag(c[i..j])
  {
    var r := c[i..j];
    forall p, q | 0 <= p < q < |r| && r[p] == '<' ensures r[q] != '>' {
      assert r[p] == c[i + p] && r[q] == c[i + q];
    }
  }

  /** Stripped text contains nothing tag-shaped, has no whitespace at its
      ends and no two whitespace characters in a row. */
  lemma StripHtmlShape(s: string)
    ensures var r := StripHtml(s);
      && NoTag(r)
      && (r != [] ==> !IsSpace(r[0]) && !IsSpace(r[|r| - 1]))
      && (forall i :: 0 <= i < |r| - 1 ==> !(IsSpace(r[i]) && IsSpace(r[i + 1])))
  {
    var a := ReplaceTags(s);
    ReplaceTagsNoTag(s);
    CollapseSpacesNoTag(a);
    var c := CollapseSpaces(a);
    NormalizeSpaceShape(a);
    TrimSpec(c);
    var i, j :| 0 <= i <= j <= |c| && Trim(c) == c[i..j];
    NoTagSlice(c, i, j);
  }

  // ---------------------------------------------------------------------
  // Truncation

  /** The default limit of `truncateText`. */
  const DefaultDescriptionLimit: nat := 220

  /** `Math.max(0, limit - 1)`. */
  function KeptLength(limit: nat): nat
  {
    if limit == 0 then 0 else limit - 1
  }

  /** The suffix `truncateText` writes: the UTF-8 encoding of the ellipsis
      U+2026 (bytes E2 80 A6) read back as Windows-1252, three characters. */
  const AsWrittenEllipsis: string := "\U{00E2}\U{20AC}\U{00A6}"

  /** `truncateText` exactly as written. */
  function TruncateTextAsWritten(text: string, limit: nat): (r: string)
    ensures |text| <= limit ==> r == text
    ensures |text| > limit ==> r == text[..KeptLength(limit)] + AsWrittenEllipsis
    ensures |text| > limit ==> |r| == KeptLength(limit) + 3
  {
    if |text| <= limit then text else text[..KeptLength(limit)] + AsWrittenEllipsis
  }

  /** As written, a text one character over the card's 80-character limit
      comes out at 82 characters: longer than the text it shortens. */
  lemma TruncateAsWrittenOverflows()
    ensures var text := seq(81, _ => 'a');
      |TruncateTextAsWritten(text, 80)| == 82 > |text|
  {
  }

  /** `truncateText` with the intended one-character ellipsis: a text
      within the limit is kept, a longer one is cut to exactly `limit`
      characters (at least one), ending in the ellipsis after a prefix of
      the text. */
  function TruncateText(text: string, limit: nat): (r: string)
    ensures |text| <= limit ==> r == text
    ensures |text| > limit ==>
      (|r| == (if limit == 0 then 1 else limit) && r == text[..|r| - 1] + "\U{2026}")
    ensures |r| <= |text|
    ensures r == "" <==> text == ""
  {
    if |text| <= limit then text else text[..KeptLength(limit)] + "\U{2026}"
  }

  /** The two readings differ only in the suffix: where the intended one
      ends in U+2026, the one as written ends in the three characters. */
  lemma TruncateReadings(text: string, limit: nat)
    ensures |text| <= limit ==> TruncateTextAsWritten(text, limit) == TruncateText(text, limit)
    ensures |text| > limit ==> var t := TruncateText(text, limit);
      TruncateTextAsWritten(text, limit) == t[..|t| - 1] + AsWrittenEllipsis
  {
    if |text| > limit {
      var t := TruncateText(text, limit);
      assert t[..|t| - 1] == text[..KeptLength(limit)];
    }
  }

  // ---------------------------------------------------------------------
  // Item fields shown on a card

  /** `formatDate`: the raw date, else the ISO day, else nothing. */
  function FormatDate(item: FeedItem): (r: string)
    ensures item.pubDate != "" ==> r == item.pubDate
    ensures item.pubDate == "" ==> r == item.pubDateISO
    ensures r == "" <==> item.pubDate == "" && item.pubDateISO == ""
  {
    if item.pubDate != "" then item.pubDate else item.pubDateISO
  }

  /** `formatDistributeur`: the list joined with ", " when it is non-empty,
      else the raw text. */
  function FormatDistributeur(item: FeedItem): (r: string)
    ensures item.distributeursList != [] ==> r == Join(item.distributeursList, ", ")
    ensures item.distributeursList == [] ==> r == item.distributeursRaw
  {
    if |item.distributeursList| > 0 then Join(item.distributeursList, ", ") else item.distributeursRaw
  }

  /** Each listed distributor is named in the label. */
  lemma FormatDistributeurNamesEach(item: FeedItem, k: nat)
    requires k < |item.distributeursList|
    ensures Contains(FormatDistributeur(item), item.distributeursList[k])
  {
    JoinContainsEach(item.distributeursList, ", ", k);
  }

  /** `formatMotif`: the motif text as normalised (never missing here). */
  function FormatMotif(item: FeedItem): (r: string)
    ensures r == item.motifRaw
  {
    item.motifRaw
  }

  /** The card heading before escaping: title, else id, else "Untitled". */
  function DisplayTitle(item: FeedItem): (r: string)
    ensures r != ""
    ensures item.title != "" ==> r == item.title
    ensures item.title == "" && item.id != "" ==> r == item.id
    ensures item.title == "" && item.id == "" ==> r == "Untitled"
  {
    if item.title != "" then item.title else if item.id != "" then item.id else "Untitled"
  }

  // ---------------------------------------------------------------------
  // Card markup

  const NoImageBlock: string := "<div style=\"width:100%;padding:24px;background:#f1f5f9;border-radius:10px;text-align:center;color:#64748b;font-size:13px;margin:0 0 12px;\">No image</div>"

  const ImageStyle: string := "\" style=\"display:block;width:100%;height:auto;border-radius:10px;margin:0 0 12px;\" />"

  function ImageBlock(imageUrl: string, title: string): (r: string)
    ensures imageUrl == "" ==> r == NoImageBlock
    ensures imageUrl != "" ==> "<img src=\"" + imageUrl + "\"" <= r
  {
    if imageUrl != "" then
      "<img src=\"" + imageUrl + "\" alt=\"" + title + ImageStyle
    else NoImageBlock
  }

  const DateOpen: string := "<div style=\"font-size:12px;color:#64748b;margin:0 0 8px;\">"

  function DateBlock(dateLabel: string): (r: string)
    ensures r == "" <==> dateLabel == ""
  {
    if dateLabel != "" then DateOpen + dateLabel + "</div>" else ""
  }

  const MotifOpen: string := "<div style=\"font-size:13px;line-height:1.5;color:#475569;margin:0 0 12px;\">"

  function MotifBlock(motifHtml: string): (r: string)
    ensures r == "" <==> motifHtml == ""
  {
    if motifHtml != "" then MotifOpen + motifHtml + "</div>" else ""
  }

  const DistributeurOpen: string := "<span style=\"display:inline-block;padding:8px 12px;background:#0f172a;color:#ffffff;border-radius:8px;font-size:13px;\">"

  function DistributeurBlock(distributeurHtml: string): (r: string)
    ensures r == "" <==> distributeurHtml == ""
  {
    if distributeurHtml != "" then DistributeurOpen + distributeurHtml + "</span>" else ""
  }

  const OpenFiche: string := "Open fiche"
  const LinkStyle: string := "\" style=\"display:inline-block;padding:8px 12px;background:#0f172a;color:#ffffff;text-decoration:none;border-radius:8px;font-size:13px;\">"

  function LinkBlock(link: string): (r: string)
    ensures r == "" <==> link == ""
  {
    if link != "" then "<a href=\"" + link + LinkStyle + OpenFiche + "</a>" else ""
  }

  function ActionRow(distributeurBlock: string, linkBlock: string): (r: string)
    ensures r == "" <==> distributeurBlock == "" && linkBlock == ""
  {
    if distributeurBlock != "" || linkBlock != "" then
      "<div style=\"display:flex;flex-wrap:wrap;gap:8px;\">" + distributeurBlock + linkBlock + "</div>"
    else ""
  }

  function TitleDiv(title: string): string
  {
    "<div style=\"font-size:16px;font-weight:600;color:#0f172a;margin:0 0 6px;\">" + title + "</div>"
  }

  /** The opening of every card's table. */
  const CardOpen: string := "\n    <table"
  const CardHeadOpen: string := CardOpen + " role=\"presentation\" width=\"100%\" style=\"border:1px solid #e2e8f0;border-radius:12px;margin:0 0 16px;background:#ffffff;\">\n      <tr>\n        <td style=\"padding:16px;\">\n          "
  const CardGap: string := "\n          "
  const CardClose: string := "\n        </td>\n      </tr>\n    </table>\n  "

  /** The card's table around its five blocks. */
  function CardMarkup(image: string, title: string, date: string, motif: string, actions: string): string
  {
    CardHeadOpen + image + CardGap + title + CardGap + date + CardGap + motif + CardGap + actions + CardClose
  }

  /** The escaped pieces of a card, as `buildItemCard` computes them. */
  datatype CardParts = CardParts(title: string, link: string, imageUrl: string, dateLabel: string,
                                 distributeurHtml: string, motifHtml: string)

  function CardPartsOf(item: FeedItem): (p: CardParts)
    ensures p.title == EscapeHtml(DisplayTitle(item))
    ensures item.link != "" ==> p.link == EscapeHtml(item.link)
    ensures item.enclosureUrl != "" ==> p.imageUrl == EscapeHtml(item.enclosureUrl)
    ensures p.link == "" <==> item.link == ""
    ensures p.imageUrl == "" <==> item.enclosureUrl == ""
    ensures p.dateLabel == EscapeHtml(FormatDate(item))
    ensures p.distributeurHtml ==
      (var t := TruncateTextAsWritten(FormatDistributeur(item), 80); if t != "" then EscapeHtml(t) else "")
    ensures p.motifHtml ==
      (var t := TruncateTextAsWritten(FormatMotif(item), 140); if t != "" then EscapeHtml(t) else "")
    ensures p.distributeurHtml == "" <==> FormatDistributeur(item) == ""
    ensures p.motifHtml == "" <==> item.motifRaw == ""
    ensures HtmlSafe(p.title) && HtmlSafe(p.link) && HtmlSafe(p.imageUrl) && HtmlSafe(p.dateLabel)
      && HtmlSafe(p.distributeurHtml) && HtmlSafe(p.motifHtml)
  {
    var distributeur := TruncateTextAsWritten(FormatDistributeur(item), 80);
    var motif := TruncateTextAsWritten(FormatMotif(item), 140);
    EscapeHtmlProperties(DisplayTitle(item));
    EscapeHtmlProperties(item.link);
    EscapeHtmlProperties(item.enclosureUrl);
    EscapeHtmlProperties(FormatDate(item));
    EscapeHtmlProperties(distributeur);
    EscapeHtmlProperties(motif);
    CardParts(
      title := EscapeHtml(DisplayTitle(item)),
      link := if item.link != "" then EscapeHtml(item.link) else "",
      imageUrl := if item.enclosureUrl != "" then EscapeHtml(item.enclosureUrl) else "",
      dateLabel := EscapeHtml(FormatDate(item)),
      distributeurHtml := if distributeur != "" then EscapeHtml(distributeur) else "",
      motifHtml := if motif != "" then EscapeHtml(motif) else "")
  }

  /** Read back, the card's texts are the item's: its title, its date, and
      the distributor and motif texts as cut to 80 and 140 characters. */
  lemma CardPartsReadBack(item: FeedItem)
    ensures var p := CardPartsOf(item);
      Unescape(p.title) == DisplayTitle(item) && Unescape(p.dateLabel) == FormatDate(item) &&
      Unescape(p.distributeurHtml) == TruncateTextAsWritten(FormatDistributeur(item), 80) &&
      Unescape(p.motifHtml) == TruncateTextAsWritten(FormatMotif(item), 140)
  {
    EscapeHtmlProperties(DisplayTitle(item));
    EscapeHtmlProperties(FormatDate(item));
    EscapeHtmlProperties(TruncateTextAsWritten(FormatDistributeur(item), 80));
    EscapeHtmlProperties(TruncateTextAsWritten(FormatMotif(item), 140));
  }

  /** `buildItemCard`: the card is a table holding the image block (or
      "No image"), the escaped title, the date, the motif and the action
      row, each built from the card's parts. */
  function BuildItemCard(item: FeedItem): (r: string)
    ensures CardOpen <= r
    ensures var p := CardPartsOf(item);
      Contains(r, ImageBlock(p.imageUrl, p.title)) && Contains(r, TitleDiv(p.title)) &&
      Contains(r, DateBlock(p.dateLabel)) && Contains(r, MotifBlock(p.motifHtml)) &&
      Contains(r, ActionRow(DistributeurBlock(p.distributeurHtml), LinkBlock(p.link)))
  {
    var p := CardPartsOf(item);
    var image := ImageBlock(p.imageUrl, p.title);
    var actions := ActionRow(DistributeurBlock(p.distributeurHtml), LinkBlock(p.link));
    CardShowsBlocks(image, TitleDiv(p.title), DateBlock(p.dateLabel), MotifBlock(p.motifHtml), actions);
    CardMarkup(image, TitleDiv(p.title), DateBlock(p.dateLabel), MotifBlock(p.motifHtml), actions)
  }

  lemma CardShowsBlocks(image: string, title: string, date: string, motif: string, actions: string)
    ensures var card := CardMarkup(image, title, date, motif, actions);
      CardOpen <= card && Contains(card, image) && Contains(card, title) &&
      Contains(card, date) && Contains(card, motif) && Contains(card, actions)
  {
    var card := CardMarkup(image, title, date, motif, actions);
    CardOpenPrefix(card);
    CardLayout(CardHeadOpen, image, CardGap, title, date, motif, actions, CardClose);
  }

  /** The pieces of a card, whatever its fixed markup. */
  lemma CardLayout(o: string, image: string, g: string, title: string,
                   date: string, motif: string, actions: string, c: string)
    ensures var card := o + image + g + title + g + date + g + motif + g + actions + c;
      Contains(card, image) && Contains(card, title) &&
      Contains(card, date) && Contains(card, motif) && Contains(card, actions)
  {
    var card := o + image + g + title + g + date + g + motif + g + actions + c;
    var i := |o|;
    assert card[i..i + |image|] == image;
    ContainsAt(card, image, i);
    i := i + |image| + |g|;
    assert card[i..i + |title|] == title;
    ContainsAt(card, title, i);
    i := i + |title| + |g|;
    assert card[i..i + |date|] == date;
    ContainsAt(card, date, i);
    i := i + |date| + |g|;
    assert card[i..i + |motif|] == motif;
    ContainsAt(card, motif, i);
    i := i + |motif| + |g|;
    assert card[i..i + |actions|] == actions;
    ContainsAt(card, actions, i);
  }

  lemma CardOpenPrefix(card: string)
    requires CardHeadOpen <= card
    ensures CardOpen <= card
  {
    assert card[..|CardOpen|] == CardHeadOpen[..|CardOpen|];
  }

  // ---------------------------------------------------------------------
  // Sections and document

  /** One titled list of items. */
  datatype Section = Section(title: string, items: seq<FeedItem>)

  const NoneBlock: string := "<div" + " style=\"font-size:14px;color:#64748b;margin:0 0 16px;\">- none</div>"

  /** `items.map(buildItemCard).join("")`. */
  function Cards(items: seq<FeedItem>): (r: string)
    ensures items == [] <==> r == ""
  {
    var cards := Map(items, BuildItemCard);
    assert items != [] ==> Concat(cards) == cards[0] + Concat(cards[1..]) && CardOpen <= cards[0];
    Concat(cards)
  }

  const SectionLead: string := "\n    <div style=\"margin:24px 0 8px;font-size:18px;font-weight:600;color:#0f172a;\">"
  const SectionClose: string := "</div>\n    "
  const SectionEnd: string := "\n  "

  /** The item count as the heading shows it. */
  function CountLabel(n: nat): (r: string)
    ensures " (" <= r
  {
    " (" + NatToString(n) + ")"
  }

  /** The heading line of a section: its escaped title and item count. */
  function SectionHead(title: string, n: nat): (r: string)
    ensures SectionLead + EscapeHtml(title) + CountLabel(n) <= r
    ensures Contains(r, CountLabel(n))
  {
    var heading := EscapeHtml(title);
    LastButOne(SectionLead, heading, CountLabel(n), SectionClose);
    SectionLead + heading + CountLabel(n) + SectionClose
  }

  /** `buildSection`: the heading line, then the cards, or the "- none"
      line when there are no items. */
  function BuildSection(section: Section): (r: string)
    ensures SectionHead(section.title, |section.items|) <= r
    ensures section.items == [] ==> r == SectionHead(section.title, 0) + NoneBlock + SectionEnd
    ensures section.items != [] ==> r == SectionHead(section.title, |section.items|) + Cards(section.items) + SectionEnd
    ensures section.items == [] ==> Contains(r, NoneBlock)
    ensures section.items != [] ==> Contains(r, Cards(section.items))
    ensures Contains(r, CountLabel(|section.items|))
  {
    var head := SectionHead(section.title, |section.items|);
    var body := if section.items != [] then Cards(section.items) else NoneBlock;
    HeadBodyTail(head, body, SectionEnd, CountLabel(|section.items|));
    head + body + SectionEnd
  }

  /** What a text made of a head, a body and a tail shows. */
  lemma HeadBodyTail(head: string, body: string, tail: string, inHead: string)
    requires Contains(head, inHead)
    ensures head <= head + body + tail
    ensures Contains(head + body + tail, body)
    ensures Contains(head + body + tail, inHead)
  {
    PrefixOfThree(head, body, tail);
    ContainsConcat(head, body, tail);
    ContainsWithin("", head, body + tail, inHead);
    assert "" + head + (body + tail) == head + body + tail;
  }

  /** The "- none" line follows the heading exactly when the section is
      empty; otherwise a card's table does. */
  lemma SectionNoneOnlyWhenEmpty(section: Section)
    ensures var head := SectionHead(section.title, |section.items|);
      head + NoneBlock <= BuildSection(section) <==> section.items == []
    ensures section.items != [] ==> SectionHead(section.title, |section.items|) + CardOpen <= BuildSection(section)
  {
    var head := SectionHead(section.title, |section.items|);
    if section.items != [] {
      CardsOpenTable(section.items);
      TableNotNone(head, Cards(section.items), SectionEnd);
    } else {
      PrefixOfThree(head, NoneBlock, SectionEnd);
    }
  }

  lemma PrefixOfThree(a: string, b: string, c: string)
    ensures a + b <= a + b + c
  {
    assert (a + b + c)[..|a + b|] == a + b;
  }

  /** A card's table, not the "- none" line, follows the heading. */
  lemma TableNotNone(head: string, cards: string, tail: string)
    requires CardOpen <= cards
    ensures !(head + NoneBlock <= head + cards + tail)
    ensures head + CardOpen <= head + cards + tail
  {
    var r := head + cards + tail;
    assert r[|head|] == cards[0] == '\n';
    assert NoneBlock[0] == '<';
    assert (head + NoneBlock)[|head|] == NoneBlock[0];
    assert r[..|head| + |CardOpen|] == head + cards[..|CardOpen|];
  }

  /** A non-empty list of cards starts with the first card's table. */
  lemma CardsOpenTable(items: seq<FeedItem>)
    requires items != []
    ensures CardOpen <= Cards(items)
  {
    var first := BuildItemCard(items[0]);
    assert Map(items, BuildItemCard)[0] == first;
    assert Cards(items) == first + Concat(Map(items, BuildItemCard)[1..]);
  }

  /** Cards follow the items' order: the cards of two lists one after the
      other are the cards of the joined list. */
  lemma {:induction false} CardsAppend(a: seq<FeedItem>, b: seq<FeedItem>)
    ensures Cards(a + b) == Cards(a) + Cards(b)
  {
    MapAppend(a, b, BuildItemCard);
    ConcatAppend(Map(a, BuildItemCard), Map(b, BuildItemCard));
  }

  /** The last-but-one of four pieces ends a prefix and is found. */
  lemma LastButOne(a: string, b: string, c: string, d: string)
    ensures a + b + c <= a + b + c + d
    ensures Contains(a + b + c + d, c)
  {
    var t := a + b + c + d;
    assert t[..|a + b + c|] == a + b + c;
    assert t[|a| + |b|..|a| + |b| + |c|] == c;
    ContainsAt(t, c, |a| + |b|);
  }

  /** Every item of a section gets its card. */
  lemma CardsShowEveryItem(items: seq<FeedItem>, k: nat)
    requires k < |items|
    ensures Contains(Cards(items), BuildItemCard(items[k]))
  {
    ConcatContainsPart(Map(items, BuildItemCard), k);
  }

  const DefaultTitle: string := "RappelConso updates"

  const IntroStyle: string := "margin:0 0 16px;color:#475569;font-size:14px;line-height:1.5;"
  const FooterStyle: string := "margin:24px 0 0;color:#94a3b8;font-size:12px;line-height:1.5;"
  const ParagraphClose: string := "</p>"

  function ParagraphOpen(style: string): string
  {
    "<p style=\"" + style + "\">"
  }

  /** The intro and footer paragraphs of `buildEmailHtml`: nothing for an
      empty text, otherwise a `<p>` of the given style whose content is the
      escaped text. */
  function Paragraph(style: string, text: string): (r: string)
    ensures r == "" <==> text == ""
    ensures text != "" ==>
      ParagraphOpen(style) <= r && |ParagraphOpen(style)| + |ParagraphClose| <= |r| &&
      r[|ParagraphOpen(style)|..|r| - |ParagraphClose|] == EscapeHtml(text) &&
      r[|r| - |ParagraphClose|..] == ParagraphClose
  {
    if text != "" then ParagraphOpen(style) + EscapeHtml(text) + ParagraphClose else ""
  }

  /** The paragraph holds the escaped text, and decoding its content gives
      the text back. */
  lemma ParagraphReadBack(style: string, text: string)
    requires text != ""
    ensures var r := Paragraph(style, text);
      Contains(r, EscapeHtml(text)) &&
      Unescape(r[|ParagraphOpen(style)|..|r| - |ParagraphClose|]) == text
  {
    var r := Paragraph(style, text);
    ContainsAt(r, EscapeHtml(text), |ParagraphOpen(style)|);
    EscapeHtmlProperties(text);
  }

  const DocumentType: string := "\n    <!doctype html>\n    <html>\n"
  const BodyOpen: string := "      <body style=\"margin:0;padding:0;background:#f8fafc;font-family:Arial, Helvetica, sans-serif;\">\n"
  const PageTableOpen: string := "        <table role=\"presentation\" width=\"100%\" style=\"background:#f8fafc;padding:24px 12px;\">\n          <tr>\n            <td align=\"center\">\n"
  const CardTableOpen: string := "              <table role=\"presentation\" width=\"100%\" style=\"max-width:640px;background:#ffffff;border-radius:16px;border:1px solid #e2e8f0;\">\n                <tr>\n                  <td style=\"padding:24px;\">\n"
  const TitleOpen: string := "                    <div style=\"font-size:22px;font-weight:700;color:#0f172a;margin:0 0 8px;\">"
  const DocumentOpen: string := DocumentType + BodyOpen + PageTableOpen + CardTableOpen + TitleOpen
  const TitleClose: string := "</div>\n                    "
  const BlockGap: string := "\n                    "
  const DocumentClose: string := "\n                  </td>\n                </tr>\n              </table>\n            </td>\n          </tr>\n        </table>\n      </body>\n    </html>\n  "

  /** All sections, in order. */
  function SectionsMarkup(sections: seq<Section>): string
  {
    Concat(Map(sections, BuildSection))
  }

  /** The argument object of `buildEmailHtml`. A message keeps its html
      part as this document; `BuildEmailHtml` is its rendering. */
  datatype EmailDocument = EmailDocument(title: string, intro: string, sections: seq<Section>, footer: string)

  /** The title block of the page: the escaped title, or the default one. */
  function PageHead(title: string): string
  {
    DocumentOpen + EscapeHtml(if title != "" then title else DefaultTitle) + TitleClose
  }

  /** `buildEmailHtml`: the page opens with the escaped title (or the
      default one) directly followed by the intro paragraph, holds every
      section in order, and closes with the footer paragraph. */
  function BuildEmailHtml(title: string, intro: string, sections: seq<Section>, footer: string): (r: string)
    ensures PageHead(title) <= r
    ensures PageHead(title) + Paragraph(IntroStyle, intro) + BlockGap <= r
    ensures Contains(r, Paragraph(IntroStyle, intro))
    ensures Contains(r, SectionsMarkup(sections))
    ensures Contains(r, Paragraph(FooterStyle, footer))
    ensures EndsWith(r, BlockGap + Paragraph(FooterStyle, footer) + DocumentClose)
  {
    PageOf(PageHead(title), Paragraph(IntroStyle, intro), BlockGap, SectionsMarkup(sections),
           Paragraph(FooterStyle, footer), DocumentClose)
  }

  /** A page of head, intro, gap, sections, gap, footer and close, whatever
      its fixed markup. */
  function PageOf(h: string, i: string, g: string, m: string, f: string, c: string): (t: string)
    ensures h <= t && h + i + g <= t
    ensures Contains(t, i) && Contains(t, m) && Contains(t, f)
    ensures EndsWith(t, g + f + c)
  {
    PageLayout(h, i, g, m, f, c);
    (h + i + g) + m + (g + f + c)
  }

  /** A document rendered by `buildEmailHtml`. */
  function RenderDocument(doc: EmailDocument): string
  {
    BuildEmailHtml(doc.title, doc.intro, doc.sections, doc.footer)
  }

  /** A rendered document opens with its escaped title (or the default
      one) and holds its intro, its sections' markup and its footer. */
  lemma RenderShowsSections(doc: EmailDocument)
    ensures var page := RenderDocument(doc);
      DocumentOpen + EscapeHtml(if doc.title != "" then doc.title else DefaultTitle) + TitleClose <= page &&
      Contains(page, Paragraph(IntroStyle, doc.intro)) &&
      Contains(page, SectionsMarkup(doc.sections)) &&
      Contains(page, Paragraph(FooterStyle, doc.footer))
  {
  }

  /** The pieces of a page, whatever its fixed markup. */
  lemma PageLayout(h: string, i: string, g: string, m: string, f: string, c: string)
    ensures var t := (h + i + g) + m + (g + f + c);
      h <= t && h + i + g <= t &&
      Contains(t, i) && Contains(t, m) && Contains(t, f) && EndsWith(t, g + f + c)
  {
    var head := h + i + g;
    var tail := g + f + c;
    var t := head + m + tail;
    HeadMiddleTail(head, m, tail);
    PieceInPrefix(t, head, h, i);
    PieceInSuffix(t, tail, g, f);
  }

  /** A page of three parts starts with the first, holds the second and
      ends with the third. */
  lemma HeadMiddleTail(a: string, m: string, b: string)
    ensures a <= a + m + b && Contains(a + m + b, m) && EndsWith(a + m + b, b)
  {
    var t := a + m + b;
    assert t[..|a|] == a;
    assert t[|a|..|a| + |m|] == m;
    ContainsAt(t, m, |a|);
    assert t[|t| - |b|..] == b;
  }

  /** A piece right after a lead at the start of a prefix of the page is
      in the page, and the lead is a prefix of the page. */
  lemma PieceInPrefix(t: string, part: string, lead: string, piece: string)
    requires part <= t && lead + piece <= part
    ensures lead <= t && Contains(t, piece)
  {
    assert t[..|lead|] == lead;
    assert t[|lead|..|lead| + |piece|] == piece;
    ContainsAt(t, piece, |lead|);
  }

  /** A piece right after a lead at the start of a suffix of the page is
      in the page. */
  lemma PieceInSuffix(t: string, part: string, lead: string, piece: string)
    requires EndsWith(t, part) && lead + piece <= part
    ensures Contains(t, piece)
  {
    var k := |t| - |part| + |lead|;
    assert t[k..k + |piece|] == part[|lead|..|lead| + |piece|] == piece;
    ContainsAt(t, piece, k);
  }

  /** With no title of its own, the document uses "RappelConso updates",
      which needs no escaping. */
  lemma DefaultTitleIsPlain()
    ensures EscapeHtml(DefaultTitle) == DefaultTitle
  {
    EscapeOfPlain(DefaultTitle);
  }

  /** Text without special characters escapes to itself. */
  lemma {:induction false} EscapeOfPlain(s: string)
    requires forall i :: 0 <= i < |s| ==> s[i] !in "&<>\"'"
    ensures EscapeHtml(s) == s
  {
    EscapeHtmlPerChar(s);
    EscapeCharsOfPlain(s);
  }

  lemma {:induction false} EscapeCharsOfPlain(s: string)
    requires forall i :: 0 <= i < |s| ==> s[i] !in "&<>\"'"
    ensures EscapeChars(s) == s
  {
    if s != [] {
      EscapeCharsOfPlain(s[1..]);
      assert s == [s[0]] + s[1..];
    }
  }
}
