/**
 * How the chat library's `Command("start")` filter recognises a command in a message:
 * the text (or, when there is no text, the caption) is split on whitespace, and its first
 * word must be the prefix `/` followed by the command name, optionally followed by `@`
 * and the bot's mention.
 */
module Commands {

  /** The characters Python's `str.split()` treats as whitespace. */
  predicate IsSpace(c: char) {
    c in {' ', '\t', '\n', '\r', '\U{B}', '\U{C}', '\U{1C}', '\U{1D}', '\U{1E}', '\U{1F}',
          '\U{85}', '\U{A0}', '\U{1680}', '\U{2000}', '\U{2001}', '\U{2002}', '\U{2003}',
          '\U{2004}', '\U{2005}', '\U{2006}', '\U{2007}', '\U{2008}', '\U{2009}', '\U{200A}',
          '\U{2028}', '\U{2029}', '\U{202F}', '\U{205F}', '\U{3000}'}
  }

  /** `s` without its leading whitespace. */
  function TrimStart(s: string): (r: string)
    ensures |r| <= |s| && r == s[|s| - |r|..]
    ensures r == [] || !IsSpace(r[0])
  {
    if s != [] && IsSpace(s[0]) then TrimStart(s[1..]) else s
  }

  /** The longest prefix of `s` that holds no whitespace. */
  function LeadingWord(s: string): (w: string)
    ensures w <= s
    ensures |w| < |s| ==> IsSpace(s[|w|])
  {
    if s == [] || IsSpace(s[0]) then [] else [s[0]] + LeadingWord(s[1..])
  }

  /** Everything `TrimStart` drops is whitespace. */
  lemma {:induction false} TrimStartDropsOnlySpaces(s: string)
    ensures forall i :: 0 <= i < |s| - |TrimStart(s)| ==> IsSpace(s[i])
  {
    if s != [] && IsSpace(s[0]) {
      TrimStartDropsOnlySpaces(s[1..]);
      forall i | 0 <= i < |s| - |TrimStart(s)| ensures IsSpace(s[i]) {
        if i > 0 {
          assert s[i] == s[1..][i - 1];
        }
      }
    }
  }

  /** The word `LeadingWord` takes holds no whitespace. */
  lemma {:induction false} LeadingWordHasNoSpace(s: string)
    ensures forall i :: 0 <= i < |LeadingWord(s)| ==> !IsSpace(LeadingWord(s)[i])
  {
    if s != [] && !IsSpace(s[0]) {
      LeadingWordHasNoSpace(s[1..]);
      var w := LeadingWord(s);
      forall i | 0 <= i < |w| ensures !IsSpace(w[i]) {
        if i > 0 {
          assert w[i] == LeadingWord(s[1..])[i - 1];
        }
      }
    }
  }

  /** The first element of `s.split()`, or the empty string when `s` is blank. */
  function FirstWord(s: string): string {
    LeadingWord(TrimStart(s))
  }

  /**
   * Whether `text` is the `/start` command. The part after `@` (the mention) must be empty;
   * a non-empty mention is accepted by the library only when it names this bot, which is
   * outside the model, so it is treated as no match.
   */
  predicate IsStartCommand(text: string) {
    var w := FirstWord(text);
    |w| > 0 && w[0] == '/' && (w[1..] == "start" || w[1..] == "start@")
  }

  /** A text whose first character is neither whitespace nor `/` is never the start command. */
  lemma NotStartCommand(text: string)
    requires |text| > 0 && !IsSpace(text[0]) && text[0] != '/'
    ensures !IsStartCommand(text)
  {
    assert TrimStart(text) == text;
    assert LeadingWord(text)[0] == text[0];
  }

  /** Leading whitespace does not hide the command: `"  /start"` is still the start command. */
  lemma StartCommandAfterSpaces(pad: string, rest: string)
    requires forall i :: 0 <= i < |pad| ==> IsSpace(pad[i])
    requires |rest| > 0 && !IsSpace(rest[0])
    ensures IsStartCommand(pad + rest) <==> IsStartCommand(rest)
  {
    TrimStartSkipsPadding(pad, rest);
    assert TrimStart(rest) == rest;
  }

  lemma {:induction false} TrimStartSkipsPadding(pad: string, rest: string)
    requires forall i :: 0 <= i < |pad| ==> IsSpace(pad[i])
    requires |rest| > 0 && !IsSpace(rest[0])
    ensures TrimStart(pad + rest) == TrimStart(rest)
  {
    if pad != [] {
      assert (pad + rest)[1..] == pad[1..] + rest;
      TrimStartSkipsPadding(pad[1..], rest);
    } else {
      assert pad + rest == rest;
    }
  }
}
