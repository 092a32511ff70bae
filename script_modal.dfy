/** The script export text (`getScriptText`), the empty-text guard of copy and download, and
    the "i/n" history counter of the script modal. */
module ScriptModal {
  import opened Types
  import opened Strings

  /** The separator line under the title: fifty `=` characters. */
  const Rule: string := "=================================================="

  const MysteryHeader: string := "[INTENSIFICADOR DO MISTÉRIO]"
  const PositioningHeader: string := "[POSICIONAMENTO]"
  const NotableHeader: string := "[CONTEÚDO NOTÁVEL]"
  const CallHeader: string := "[CHAMADA PARA AÇÃO]"

  /** A blank line, a section header, and the section's text on the next line. */
  function Section(header: string, body: string): string {
    "\n\n" + header + "\n" + body
  }

  /** The first line. */
  function TitleLine(title: string): string {
    "TÍTULO: " + title
  }

  /** Everything after the title line up to and including the last header, in fixed order. */
  function Sections(s: GeneratedScript): string {
    "\n" + Rule
    + Section(MysteryHeader, s.mysteryIntensifier)
    + Section(PositioningHeader, s.positioning)
    + Section(NotableHeader, s.notableContent)
    + "\n\n" + CallHeader
  }

  /** The layout up to and including the last header. */
  function Layout(s: GeneratedScript): string {
    TitleLine(s.title) + Sections(s)
  }

  /** The template literal before `trim()`: a leading line break, the layout, the call to
      action on its own line, and the closing line's indentation. */
  function Template(s: GeneratedScript): string {
    "\n" + Layout(s) + "\n" + s.callToAction + "\n    "
  }

  /** `getScriptText`: "" without a script, otherwise the trimmed template. */
  function ScriptText(script: Option<GeneratedScript>): string {
    if script.None? then "" else Trim(Template(script.value))
  }

  lemma LayoutEdges(s: GeneratedScript)
    ensures Layout(s) != [] && !IsSpace(Layout(s)[0]) && !IsSpace(Layout(s)[|Layout(s)| - 1])
  {
    var body := "\n" + Rule
      + Section(MysteryHeader, s.mysteryIntensifier)
      + Section(PositioningHeader, s.positioning)
      + Section(NotableHeader, s.notableContent)
      + "\n\n";
    assert Sections(s) == body + CallHeader;
    assert Layout(s)[0] == TitleLine(s.title)[0] == 'T';
  }

  /** The closing line's indentation is blank. */
  lemma BlankIndent()
    ensures AllSpace("\n    ")
  {
    var w := "\n    ";
    forall k | 0 <= k < |w| ensures IsSpace(w[k]) {
      assert w[k] == '\n' || w[k] == ' ';
    }
  }

  /** Trimming a text framed by a line break in front and by a line, a line break and
      indentation behind keeps the text whole and the last line without its trailing white
      space, or drops that line when it is blank. */
  lemma TrimFramed(l: string, last: string)
    requires l != [] && !IsSpace(l[0]) && !IsSpace(l[|l| - 1])
    ensures var t := TrimEnd(last);
      Trim("\n" + l + "\n" + last + "\n    ") == l + (if t == "" then "" else "\n" + t)
  {
    var body := l + "\n" + last;
    var tail := body + "\n    ";
    assert "\n" + l + "\n" + last + "\n    " == "\n" + tail;
    assert tail[0] == l[0];
    TrimPadded("\n", tail);
    assert Trim("\n" + tail) == TrimEnd(tail);
    BlankIndent();
    TrimEndPadded(body, "\n    ");
    assert TrimEnd(tail) == TrimEnd(body);
    TrimEndBreak(l, last);
  }

  /** `TrimEnd` of a text, a line break and a last line. */
  lemma TrimEndBreak(l: string, last: string)
    requires l != [] && !IsSpace(l[|l| - 1])
    ensures var t := TrimEnd(last);
      TrimEnd(l + "\n" + last) == l + (if t == "" then "" else "\n" + t)
  {
    if TrimEnd(last) != "" {
      TrimEndAppend(l + "\n", last);
    } else {
      assert AllSpace("\n" + last) by {
        assert last[0..] == last;
      }
      assert l + "\n" + last == l + ("\n" + last);
      TrimEndPadded(l, "\n" + last);
    }
  }

  /** What trimming does to the template: the layout is kept whole, and the call to action
      follows on its own line without its trailing white space, or is dropped when blank. */
  lemma ScriptTextShape(s: GeneratedScript)
    ensures var cta := TrimEnd(s.callToAction);
      ScriptText(Some(s)) == TitleLine(s.title) + Sections(s) + (if cta == "" then "" else "\n" + cta)
  {
    LayoutEdges(s);
    TrimFramed(Layout(s), s.callToAction);
  }

  /** The exported text starts with the title line. */
  lemma ScriptTextStartsWithTitle(s: GeneratedScript)
    ensures |TitleLine(s.title)| <= |ScriptText(Some(s))|
    ensures ScriptText(Some(s))[..|TitleLine(s.title)|] == TitleLine(s.title)
  {
    ScriptTextShape(s);
    var cta := TrimEnd(s.callToAction);
    ConcatPrefix(TitleLine(s.title), Sections(s), if cta == "" then "" else "\n" + cta);
  }

  /** The left operand of a concatenation is its prefix. */
  lemma ConcatPrefix(a: string, b: string, c: string)
    ensures |a| <= |a + b + c| && (a + b + c)[..|a|] == a
  {
    assert a + b + c == a + (b + c);
  }

  /** The exported text has no white space at either end, and is empty exactly when there
      is no script: the copy and download guards fire only then. */
  lemma ScriptTextEmptyIffNoScript(script: Option<GeneratedScript>)
    ensures NoSpaceEdges(ScriptText(script))
    ensures ScriptText(script) == "" <==> script.None?
  {
    if script.Some? {
      ScriptTextShape(script.value);
      LayoutEdges(script.value);
    }
  }

  /** `handleCopy` / `handleDownload`: the text handed to the clipboard or the file, or
      nothing when the text is empty. */
  function ExportPayload(script: Option<GeneratedScript>): (p: Option<string>)
    ensures p.Some? <==> script.Some?
    ensures p.Some? ==> p.value == ScriptText(script) && p.value != ""
  {
    ScriptTextEmptyIffNoScript(script);
    var text := ScriptText(script);
    if text == "" then None else Some(text)
  }

  /** The "i/n" counter: shown only for a history of more than one script, as the 1-based
      position. */
  function HistoryCounter(historyIndex: int, historyLength: int): (c: Option<(int, int)>)
    ensures c.Some? <==> historyLength > 1
    ensures c.Some? ==> c.value.0 == historyIndex + 1 && c.value.1 == historyLength
  {
    if historyLength > 1 then Some((historyIndex + 1, historyLength)) else None
  }
}
