/**
 * Conversation messages and the `save_chat` formatter shared by both programs:
 * a header followed by one Markdown section per user or assistant message, and
 * the timestamped file name of ai_assistant.py.
 */
module Transcript {
  import opened Outcomes
  import opened PyStr

  /** One element of a list-valued message content. */
  datatype Block =
    | ImageBlock(data: string)     // `{"type": "image", "source": {... "data": data}}`
    | TextBlock(text: string)      // `{"type": "text", "text": text}`

  /** A message content: a plain string or a list of blocks (an image turn). */
  datatype Content = Plain(text: string) | Blocks(parts: seq<Block>)

  datatype Message = Message(role: string, content: Content)

  /** The quote `repr` puts around `s`: double quotes only when `s` has a `'` and no `"`. */
  function QuoteFor(s: string): char {
    if '\'' in s && '"' !in s then '"' else '\''
  }

  /** How `repr` writes one character inside quotes `q`. */
  function EscapeChar(c: char, q: char): string {
    if c == '\\' then "\\\\"
    else if c == '\n' then "\\n"
    else if c == '\r' then "\\r"
    else if c == '\t' then "\\t"
    else if c == q then ['\\', q]
    else [c]
  }

  function Escaped(s: string, q: char): string {
    if s == [] then [] else EscapeChar(s[0], q) + Escaped(s[1..], q)
  }

  /** Python's `repr` of a string (the escapes of the other control characters aside). */
  function Repr(s: string): (r: string)
    ensures |r| >= 2 && r[0] == r[|r| - 1] == QuoteFor(s)
    ensures r[0] == '"' <==> '\'' in s && '"' !in s
  {
    var q := QuoteFor(s);
    [q] + Escaped(s, q) + [q]
  }

  /** Reads an escaped string back: a backslash and the character after it stand for one character. */
  function Unescape(t: string): string {
    if t == [] then []
    else if t[0] == '\\' && |t| >= 2 then [UnescapeChar(t[1])] + Unescape(t[2..])
    else [t[0]] + Unescape(t[1..])
  }

  function UnescapeChar(c: char): char {
    if c == 'n' then '\n' else if c == 'r' then '\r' else if c == 't' then '\t' else c
  }

  /** Reading back one escaped character. */
  lemma UnescapeOfEscape(c: char, q: char, rest: string)
    requires q == '\'' || q == '"'
    ensures Unescape(EscapeChar(c, q) + rest) == [c] + Unescape(rest)
  {
    var e := EscapeChar(c, q);
    var t := e + rest;
    if |e| == 2 {
      assert t[0] == '\\' && t[1] == e[1] && t[2..] == rest;
      assert UnescapeChar(e[1]) == c;
    } else {
      assert t[0] == c && t[1..] == rest;
    }
  }

  /** Escaping loses nothing: the text between `repr`'s quotes reads back as the string. */
  lemma {:induction false} EscapedRoundTrip(s: string, q: char)
    requires q == '\'' || q == '"'
    ensures Unescape(Escaped(s, q)) == s
  {
    if s != [] {
      EscapedRoundTrip(s[1..], q);
      UnescapeOfEscape(s[0], q, Escaped(s[1..], q));
    }
  }

  /** Text with nothing to escape appears between the quotes unchanged. */
  lemma {:induction false} EscapedPlain(s: string, q: char)
    requires forall k :: 0 <= k < |s| ==> EscapeChar(s[k], q) == [s[k]]
    ensures Escaped(s, q) == s
  {
    if s != [] {
      EscapedPlain(s[1..], q);
    }
  }

  /** `repr` is readable back: the text between its quotes unescapes to the string. */
  lemma ReprRoundTrip(s: string)
    ensures var r := Repr(s); Unescape(r[1..|r| - 1]) == s
  {
    var r := Repr(s);
    assert r[1..|r| - 1] == Escaped(s, QuoteFor(s));
    EscapedRoundTrip(s, QuoteFor(s));
  }

  /** Inside the quotes, every quote character is escaped, so the quotes delimit the string. */
  lemma {:induction false} EscapedQuotesEscaped(s: string, q: char, k: nat)
    requires q != '\\' && k < |Escaped(s, q)| && Escaped(s, q)[k] == q
    ensures k > 0 && Escaped(s, q)[k - 1] == '\\'
  {
    if s != [] {
      var e, rest := EscapeChar(s[0], q), Escaped(s[1..], q);
      if k < |e| {
        assert e[k] == q;
      } else {
        EscapedQuotesEscaped(s[1..], q, k - |e|);
        assert (e + rest)[k - 1] == rest[k - |e| - 1];
      }
    }
  }

  lemma ApostropheChars()
    ensures QuoteFor("don't") == '"'
    ensures forall k :: 0 <= k < |"don't"| ==> EscapeChar("don't"[k], '"') == ["don't"[k]]
  {
    var s := "don't";
    assert s[0] == 'd' && s[1] == 'o' && s[2] == 'n' && s[3] == '\'' && s[4] == 't';
  }

  /** A string with an apostrophe and no double quote is shown in double quotes, unescaped. */
  lemma ApostropheRepr()
    ensures Repr("don't") == ['"'] + "don't" + ['"']
  {
    ApostropheChars();
    EscapedPlain("don't", '"');
  }

  function ShowBlock(b: Block): string {
    match b
    case ImageBlock(data) =>
      "{'type': 'image', 'source': {'type': 'base64', 'media_type': 'image/jpeg', 'data': "
      + Repr(data) + "}}"
    case TextBlock(text) => "{'type': 'text', 'text': " + Repr(text) + "}"
  }

  function ShowBlocks(bs: seq<Block>): string {
    if bs == [] then ""
    else if |bs| == 1 then ShowBlock(bs[0])
    else ShowBlock(bs[0]) + ", " + ShowBlocks(bs[1..])
  }

  /** What `f"{content}"` prints: the string itself, or the list's `str`. */
  function Show(c: Content): string {
    match c
    case Plain(text) => text
    case Blocks(parts) => "[" + ShowBlocks(parts) + "]"
  }

  /**
   * The section one message contributes: a `## ` heading naming the speaker, the
   * content and a blank line; roles other than user and assistant contribute nothing.
   */
  function Section(assistantLabel: string, m: Message): (r: string)
    ensures r != [] <==> m.role in {"user", "assistant"}
    ensures m.role == "user" ==> StartsWith(r, "## User\n\n")
    ensures m.role == "assistant" ==> StartsWith(r, "## " + assistantLabel + "\n\n")
    ensures r != [] ==> |r| >= 2 && r[|r| - 2..] == "\n\n"
  {
    if m.role == "user" then
      var head := "## User\n\n";
      var r := head + Show(m.content) + "\n\n";
      assert r[..|head|] == head;
      r
    else if m.role == "assistant" then
      var head := "## " + assistantLabel + "\n\n";
      var r := head + Show(m.content) + "\n\n";
      assert r[..|head|] == head;
      r
    else ""
  }

  /** The sections of a whole history, in history order. */
  function Body(speaker: string, history: seq<Message>): string {
    if history == [] then "" else Section(speaker, history[0]) + Body(speaker, history[1..])
  }

  /** Formatting distributes over concatenation of histories. */
  lemma {:induction false} BodyAppend(speaker: string, h1: seq<Message>, h2: seq<Message>)
    ensures Body(speaker, h1 + h2) == Body(speaker, h1) + Body(speaker, h2)
  {
    if h1 == [] {
      assert h1 + h2 == h2;
    } else {
      var h := h1 + h2;
      assert h[0] == h1[0] && h[1..] == h1[1..] + h2;
      BodyAppend(speaker, h1[1..], h2);
      var x := Section(speaker, h1[0]);
      assert x + (Body(speaker, h1[1..]) + Body(speaker, h2)) == (x + Body(speaker, h1[1..])) + Body(speaker, h2);
    }
  }

  /** Formatting one more message of the history appends its section. */
  lemma BodyPrefix(speaker: string, history: seq<Message>, i: nat)
    requires i < |history|
    ensures Body(speaker, history[..i + 1]) == Body(speaker, history[..i]) + Section(speaker, history[i])
  {
    var m := history[i];
    assert history[..i + 1] == history[..i] + [m];
    BodyAppend(speaker, history[..i], [m]);
    assert [m][1..] == [];
  }

  /** The user and assistant messages of a history, in order. */
  function Spoken(history: seq<Message>): (r: seq<Message>)
    ensures forall i :: 0 <= i < |r| ==> r[i].role in {"user", "assistant"}
    ensures |r| <= |history|
  {
    if history == [] then []
    else (if history[0].role in {"user", "assistant"} then [history[0]] else []) + Spoken(history[1..])
  }

  /** Messages with other roles contribute nothing: the transcript is that of the user and assistant messages. */
  lemma {:induction false} OtherRolesIgnored(speaker: string, history: seq<Message>)
    ensures Body(speaker, history) == Body(speaker, Spoken(history))
  {
    if history != [] {
      var first := history[0];
      OtherRolesIgnored(speaker, history[1..]);
      var head := if first.role in {"user", "assistant"} then [first] else [];
      BodyAppend(speaker, head, Spoken(history[1..]));
      if head != [] {
        assert Body(speaker, head) == Section(speaker, first) + Body(speaker, []) by {
          assert head[1..] == [];
        }
      }
    }
  }

  /** The full text `save_chat` writes: the header, then the sections. */
  function ChatLog(header: string, assistantLabel: string, history: seq<Message>): string {
    header + Body(assistantLabel, history)
  }

  lemma TranscriptStep(header: string, speaker: string, history: seq<Message>, i: nat)
    requires i < |history|
    ensures header + Body(speaker, history[..i]) + Section(speaker, history[i])
         == header + Body(speaker, history[..i + 1])
  {
    BodyPrefix(speaker, history, i);
  }

  /** `save_chat`'s loop: `formatted_chat +=` one section per message. */
  method FormatTranscript(header: string, assistantLabel: string, history: seq<Message>)
    returns (text: string)
    ensures text == ChatLog(header, assistantLabel, history)
  {
    text := header;
    for i := 0 to |history|
      invariant text == header + Body(assistantLabel, history[..i])
    {
      TranscriptStep(header, assistantLabel, history, i);
      text := text + Section(assistantLabel, history[i]);
    }
    assert history[..|history|] == history;
  }

  // ---------------------------------------------------------------- file name

  /** The fields of `datetime.datetime.now()` that the file name uses. */
  datatype DateTime = DateTime(year: nat, month: nat, day: nat, hour: nat, minute: nat, second: nat)

  predicate ValidDateTime(d: DateTime) {
    && 1000 <= d.year <= 9999 && 1 <= d.month <= 12 && 1 <= d.day <= 31
    && d.hour < 24 && d.minute < 60 && d.second < 60
  }

  predicate AllDigits(s: string) {
    forall k :: 0 <= k < |s| ==> IsDigit(s[k])
  }

  lemma DigitsJoin(a: string, b: string, c: string)
    requires AllDigits(a) && AllDigits(b) && AllDigits(c)
    ensures AllDigits(a + b + c)
  {
    var r := a + b + c;
    assert forall k :: 0 <= k < |r| ==> r[k] in a || r[k] in b || r[k] in c;
  }

  /** `%Y%m%d`, then `%H%M%S` */
  function DateDigits(d: DateTime): (r: string)
    ensures |r| == 8 && AllDigits(r)
  {
    DigitsJoin(FixedDigits(d.year, 4), FixedDigits(d.month, 2), FixedDigits(d.day, 2));
    FixedDigits(d.year, 4) + FixedDigits(d.month, 2) + FixedDigits(d.day, 2)
  }

  function TimeDigits(d: DateTime): (r: string)
    ensures |r| == 6 && AllDigits(r)
  {
    DigitsJoin(FixedDigits(d.hour, 2), FixedDigits(d.minute, 2), FixedDigits(d.second, 2));
    FixedDigits(d.hour, 2) + FixedDigits(d.minute, 2) + FixedDigits(d.second, 2)
  }

  /**
   * `f"Chat_{now.strftime('%Y%m%d_%H%M%S')}.md"`: `Chat_`, eight date digits, `_`,
   * six time digits and `.md`.
   */
  function ChatFilename(d: DateTime): (r: string)
    ensures |r| == 23 && r[..5] == "Chat_" && r[13] == '_' && r[20..] == ".md"
    ensures forall k :: (5 <= k < 13 || 14 <= k < 20) ==> IsDigit(r[k])
  {
    FilenameLayout(DateDigits(d), TimeDigits(d));
    "Chat_" + DateDigits(d) + "_" + TimeDigits(d) + ".md"
  }

  lemma FilenameLayout(date: string, time: string)
    requires |date| == 8 && AllDigits(date) && |time| == 6 && AllDigits(time)
    ensures var r := "Chat_" + date + "_" + time + ".md";
      && |r| == 23 && r[..5] == "Chat_" && r[13] == '_' && r[20..] == ".md"
      && r[5..13] == date && r[14..20] == time
      && forall k :: (5 <= k < 13 || 14 <= k < 20) ==> IsDigit(r[k])
  {
    var r := "Chat_" + date + "_" + time + ".md";
    assert forall k :: 5 <= k < 13 ==> r[k] == date[k - 5];
    assert forall k :: 14 <= k < 20 ==> r[k] == time[k - 14];
  }

  function DigitField(s: string, i: nat, w: nat): nat
    requires i + w <= |s| && forall k :: i <= k < i + w ==> IsDigit(s[k])
  {
    DigitsValue(s[i..i + w])
  }

  /** Reads the date and time back from a chat file name, if it has the shape of one. */
  function ParseChatFilename(name: string): (r: Option<DateTime>)
    ensures r.Some? ==> |name| == 23 && name[..5] == "Chat_"
  {
    if |name| == 23 && name[..5] == "Chat_" && name[13] == '_' && name[20..] == ".md"
       && (forall k :: 5 <= k < 13 ==> IsDigit(name[k]))
       && (forall k :: 14 <= k < 20 ==> IsDigit(name[k]))
    then
      Some(DateTime(DigitField(name, 5, 4), DigitField(name, 9, 2), DigitField(name, 11, 2),
                    DigitField(name, 14, 2), DigitField(name, 16, 2), DigitField(name, 18, 2)))
    else None
  }

  lemma FieldAt(name: string, i: nat, w: nat, n: nat)
    requires i + w <= |name| && name[i..i + w] == FixedDigits(n, w) && n < Pow10(w)
    ensures forall k :: i <= k < i + w ==> IsDigit(name[k])
    ensures DigitField(name, i, w) == n
  {
    assert forall k :: i <= k < i + w ==> name[k] == FixedDigits(n, w)[k - i];
  }

  /** A piece `a + b + c` of widths 4 (or 2), 2 and 2 sits in `name` at `off`: each part at its own offset. */
  lemma ThreeFieldsAt(name: string, off: nat, a: string, b: string, c: string)
    requires off + |a| + |b| + |c| <= |name| && name[off..off + |a| + |b| + |c|] == a + b + c
    ensures name[off..off + |a|] == a
    ensures name[off + |a|..off + |a| + |b|] == b
    ensures name[off + |a| + |b|..off + |a| + |b| + |c|] == c
  {
    var whole := a + b + c;
    assert forall k :: off <= k < off + |whole| ==> name[k] == whole[k - off];
  }

  /** The date digits sit at 5 and the time digits at 14. */
  lemma DateAndTimeAt(d: DateTime)
    ensures ChatFilename(d)[5..13] == DateDigits(d) && ChatFilename(d)[14..20] == TimeDigits(d)
  {
    FilenameLayout(DateDigits(d), TimeDigits(d));
  }

  /** The six fields sit at fixed offsets of the file name. */
  lemma ChatFilenameFields(d: DateTime)
    ensures var name := ChatFilename(d);
      && name[5..9] == FixedDigits(d.year, 4) && name[9..11] == FixedDigits(d.month, 2)
      && name[11..13] == FixedDigits(d.day, 2) && name[14..16] == FixedDigits(d.hour, 2)
      && name[16..18] == FixedDigits(d.minute, 2) && name[18..20] == FixedDigits(d.second, 2)
  {
    DateAndTimeAt(d);
    ThreeFieldsAt(ChatFilename(d), 5, FixedDigits(d.year, 4), FixedDigits(d.month, 2), FixedDigits(d.day, 2));
    ThreeFieldsAt(ChatFilename(d), 14, FixedDigits(d.hour, 2), FixedDigits(d.minute, 2), FixedDigits(d.second, 2));
  }

  /** Each digit field of the file name reads back as the value it was written from. */
  lemma ChatFilenameFieldValues(d: DateTime)
    requires ValidDateTime(d)
    ensures var name := ChatFilename(d);
      && |name| == 23 && (forall k :: 5 <= k < 13 ==> IsDigit(name[k]))
      && (forall k :: 14 <= k < 20 ==> IsDigit(name[k]))
      && DigitField(name, 5, 4) == d.year && DigitField(name, 9, 2) == d.month
      && DigitField(name, 11, 2) == d.day && DigitField(name, 14, 2) == d.hour
      && DigitField(name, 16, 2) == d.minute && DigitField(name, 18, 2) == d.second
  {
    var name := ChatFilename(d);
    ChatFilenameFields(d);
    assert Pow10(2) == 100 && Pow10(4) == 10000;
    FieldAt(name, 5, 4, d.year);
    FieldAt(name, 9, 2, d.month);
    FieldAt(name, 11, 2, d.day);
    FieldAt(name, 14, 2, d.hour);
    FieldAt(name, 16, 2, d.minute);
    FieldAt(name, 18, 2, d.second);
  }

  /** The file name records the time exactly: parsing it gives the time back. */
  lemma ChatFilenameRoundTrip(d: DateTime)
    requires ValidDateTime(d)
    ensures ParseChatFilename(ChatFilename(d)) == Some(d)
  {
    ChatFilenameFieldValues(d);
  }

  /** Two saves in different seconds never share a file name. */
  lemma ChatFilenameInjective(d1: DateTime, d2: DateTime)
    requires ValidDateTime(d1) && ValidDateTime(d2)
    requires ChatFilename(d1) == ChatFilename(d2)
    ensures d1 == d2
  {
    ChatFilenameRoundTrip(d1);
    ChatFilenameRoundTrip(d2);
  }
}
