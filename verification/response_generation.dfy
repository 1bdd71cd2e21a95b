/** app/services/response_generation.py, LLMService: assembling the prompt
    and asking the chat model for an answer.

    The chat API is an oracle (`ChatApi`): given the model name and the
    messages it answers with the list of choices or fails. The prompt file
    is the parsed JSON object, or None when it cannot be read or parsed. */
module ResponseGeneration {
  import opened Base

  datatype Role = System | User

  datatype Message = Message(role: Role, content: string)

  /** One choice of a chat completion; its message content may be null. */
  datatype Choice = Choice(content: Option<string>)

  type ChatApi = (Option<string>, seq<Message>) -> Result<seq<Choice>, string>

  /** The service after __init__: the model name read from the environment
      (None when unset) and the client. */
  datatype LLMService = LLMService(model: Option<string>, chat: ChatApi)

  /** The object user_query hands over: {"query": ..., "references": [...]};
      None stands for a falsy query_object. */
  datatype QueryObject = QueryObject(query: string, references: seq<string>)

  /** The two messages completion sends: the system prompt, then the user
      prompt. */
  function ChatRequest(systemPrompt: string, userPrompt: string): (msgs: seq<Message>)
    ensures |msgs| == 2
    ensures msgs[0] == Message(System, systemPrompt) && msgs[1] == Message(User, userPrompt)
  {
    [Message(System, systemPrompt), Message(User, userPrompt)]
  }

  /** completion: the content of the first choice; None when the call fails,
      when there is no choice, or when the content is null. */
  function Completion(service: LLMService, userPrompt: string, systemPrompt: string): (r: Option<string>)
    ensures var answer := service.chat(service.model, ChatRequest(systemPrompt, userPrompt));
            && (r.Some? <==> answer.Success? && answer.value != [] && answer.value[0].content.Some?)
            && (r.Some? ==> r.value == answer.value[0].content.value)
  {
    match service.chat(service.model, ChatRequest(systemPrompt, userPrompt))
    case Failure(_) => None
    case Success(choices) => if choices == [] then None else choices[0].content
  }

  // ---------------------------------------------------------------------
  // Python's repr() of a str and of a list of str, as the f-string renders
  // the references.

  /** Characters str.isprintable() rejects, as far as modelled here: the C0
      and C1 controls, DEL, the space separators other than ' ', the line and
      paragraph separators, the format characters listed below, the private
      use areas, the noncharacters U+FFFE and U+FFFF, and everything from the
      end of the variation selectors supplement (U+E01F0) on, which is
      unassigned or private use. */
  predicate NonPrintable(c: char) {
    || c < ' '
    || ('\U{007F}' <= c <= '\U{00A0}')
    || c == '\U{00AD}'
    || ('\U{0600}' <= c <= '\U{0605}')
    || c == '\U{061C}'
    || c == '\U{06DD}'
    || c == '\U{070F}'
    || c == '\U{1680}'
    || c == '\U{180E}'
    || ('\U{2000}' <= c <= '\U{200F}')
    || ('\U{2028}' <= c <= '\U{202F}')
    || ('\U{205F}' <= c <= '\U{206F}')
    || c == '\U{3000}'
    || ('\U{E000}' <= c <= '\U{F8FF}')
    || c == '\U{FEFF}'
    || ('\U{FFF0}' <= c <= '\U{FFFB}')
    || c == '\U{FFFE}' || c == '\U{FFFF}'
    || c == '\U{110BD}' || c == '\U{110CD}'
    || ('\U{1BCA0}' <= c <= '\U{1BCA3}')
    || ('\U{1D173}' <= c <= '\U{1D17A}')
    || ('\U{E0000}' <= c <= '\U{E00FF}')
    || '\U{E01F0}' <= c
  }

  function HexDigit(d: nat): (c: char)
    requires d < 16
  {
    if d < 10 then (48 + d) as char else (87 + d) as char
  }

  function HexValue(c: char): Option<nat> {
    if '0' <= c <= '9' then Some(c as int - 48)
    else if 'a' <= c <= 'f' then Some(c as int - 87)
    else if 'A' <= c <= 'F' then Some(c as int - 55)
    else None
  }

  function Pow16(w: nat): (p: nat)
    ensures p >= 1
  {
    if w == 0 then 1 else 16 * Pow16(w - 1)
  }

  /** `n` written with exactly `w` lower-case hex digits. */
  function Hex(n: nat, w: nat): (s: string)
    ensures |s| == w
  {
    if w == 0 then [] else Hex(n / 16, w - 1) + [HexDigit(n % 16)]
  }

  /** The value of a string of hex digits. */
  function HexNumber(s: string): Option<nat>
    decreases |s|
  {
    if s == [] then Some(0)
    else
      match (HexNumber(s[..|s| - 1]), HexValue(s[|s| - 1]))
      case (Some(high), Some(low)) => Some(16 * high + low)
      case _ => None
  }

  lemma {:induction false} HexRoundTrip(n: nat, w: nat)
    requires n < Pow16(w)
    ensures HexNumber(Hex(n, w)) == Some(n)
  {
    if w > 0 {
      HexRoundTrip(n / 16, w - 1);
      var s := Hex(n, w);
      assert s[..|s| - 1] == Hex(n / 16, w - 1);
      assert HexValue(s[|s| - 1]) == Some(n % 16);
    }
  }

  /** Whether repr writes `c` as an escape sequence inside quotes `q`. */
  predicate NeedsEscape(c: char, q: char) {
    c == '\\' || c == q || c == '\t' || c == '\n' || c == '\r' || NonPrintable(c)
  }

  /** What repr writes after the backslash for a character it escapes:
      the character itself for a backslash or the quote, a letter for the
      three named controls, otherwise its code in hex, in the shortest of
      the \xhh, \uhhhh and \Uhhhhhhhh forms that holds it. */
  function EscapeTail(c: char, q: char): (u: string)
    ensures 1 <= |u|
  {
    if c == '\\' || c == q then [c]
    else if c == '\t' then "t"
    else if c == '\n' then "n"
    else if c == '\r' then "r"
    else if c as int < 0x100 then "x" + Hex(c as int, 2)
    else if c as int < 0x1_0000 then "u" + Hex(c as int, 4)
    else "U" + Hex(c as int, 8)
  }

  /** The text repr writes for one character inside quotes `q`. */
  function EscapeChar(c: char, q: char): (e: string)
    ensures 1 <= |e|
  {
    if NeedsEscape(c, q) then ['\\'] + EscapeTail(c, q) else [c]
  }

  function Escape(s: string, q: char): string
    decreases |s|
  {
    if s == [] then "" else EscapeChar(s[0], q) + Escape(s[1..], q)
  }

  /** repr quotes with ' unless the text holds a ' and no ". */
  function QuoteFor(s: string): (q: char)
    ensures q == '\'' || q == '"'
  {
    if '\'' in s && '"' !in s then '"' else '\''
  }

  /** repr(s) for a str. */
  function Repr(s: string): (r: string)
    ensures |r| >= 2 && r[0] == QuoteFor(s) && r[|r| - 1] == QuoteFor(s)
  {
    var q := QuoteFor(s);
    [q] + Escape(s, q) + [q]
  }

  function ReprItems(xs: seq<string>): string
    decreases |xs|
  {
    if xs == [] then ""
    else if |xs| == 1 then Repr(xs[0])
    else Repr(xs[0]) + ", " + ReprItems(xs[1..])
  }

  /** str(xs) for a list of str: "['a', 'b']". */
  function ReprList(xs: seq<string>): (r: string)
    ensures |r| >= 2 && r[0] == '[' && r[|r| - 1] == ']'
  {
    "[" + ReprItems(xs) + "]"
  }

  // Reading repr output back.

  /** The character one escape sequence (or one plain character) at the
      start of `t` stands for, and its length. */
  function DecodeUnit(t: string, q: char): (r: Option<(char, nat)>)
    requires t != []
    ensures r.Some? ==> 1 <= r.value.1 <= |t|
  {
    if t[0] != '\\' then Some((t[0], 1))
    else if |t| < 2 then None
    else DecodeEscape(t, q)
  }

  /** The escape sequence at the start of `t`, backslash included. */
  function DecodeEscape(t: string, q: char): (r: Option<(char, nat)>)
    requires 2 <= |t| && t[0] == '\\'
    ensures r.Some? ==> 2 <= r.value.1 <= |t|
  {
    if t[1] == '\\' || t[1] == q then Some((t[1], 2))
    else if t[1] == 't' then Some(('\t', 2))
    else if t[1] == 'n' then Some(('\n', 2))
    else if t[1] == 'r' then Some(('\r', 2))
    else if t[1] == 'x' && |t| >= 4 then
      match HexNumber(t[2..4])
      case Some(v) => if v < 0x100 then Some((v as char, 4)) else None
      case None => None
    else if t[1] == 'u' && |t| >= 6 then
      match HexNumber(t[2..6])
      case Some(v) => if v < 0xD800 || 0xE000 <= v < 0x1_0000 then Some((v as char, 6)) else None
      case None => None
    else if t[1] == 'U' && |t| >= 10 then
      match HexNumber(t[2..10])
      case Some(v) => if v < 0xD800 || 0xE000 <= v < 0x11_0000 then Some((v as char, 10)) else None
      case None => None
    else None
  }

  /** The text of a quoted literal whose opening quote `q` is already read,
      and the number of characters up to and including the closing quote. */
  function ParseBody(t: string, q: char): (r: Option<(string, nat)>)
    ensures r.Some? ==> 1 <= r.value.1 <= |t|
    decreases |t|
  {
    if t == [] then None
    else if t[0] == q then Some(("", 1))
    else
      match DecodeUnit(t, q)
      case None => None
      case Some((c, n)) =>
        match ParseBody(t[n..], q)
        case None => None
        case Some((s, m)) => Some(([c] + s, n + m))
  }

  /** A quoted literal at the start of `t`: its text and its length. */
  function ParseRepr(t: string): (r: Option<(string, nat)>)
    ensures r.Some? ==> 2 <= r.value.1 <= |t|
  {
    if t == [] || (t[0] != '\'' && t[0] != '"') then None
    else
      match ParseBody(t[1..], t[0])
      case None => None
      case Some((s, n)) => Some((s, n + 1))
  }

  /** A comma-separated list of literals closed by ']' and nothing after. */
  function ParseItems(t: string): Option<seq<string>>
    decreases |t|
  {
    match ParseRepr(t)
    case None => None
    case Some((x, n)) =>
      var rest := t[n..];
      if rest == "]" then Some([x])
      else if |rest| >= 2 && rest[..2] == ", " then
        match ParseItems(rest[2..])
        case None => None
        case Some(xs) => Some([x] + xs)
      else None
  }

  function ParseReprList(t: string): Option<seq<string>> {
    if t == "[]" then Some([])
    else if t != [] && t[0] == '[' then ParseItems(t[1..])
    else None
  }

  /** Every escape sequence decodes back to its character, whatever follows;
      and none of them starts with the closing quote. */
  lemma {:induction false} DecodeEscapeChar(c: char, q: char, rest: string)
    requires q == '\'' || q == '"'
    ensures (EscapeChar(c, q) + rest)[0] != q
    ensures DecodeUnit(EscapeChar(c, q) + rest, q) == Some((c, |EscapeChar(c, q)|))
  {
    if NeedsEscape(c, q) {
      DecodeEscapeTail(c, q, rest);
    } else {
      assert EscapeChar(c, q) == [c];
    }
  }

  lemma {:induction false} DecodeEscapeTail(c: char, q: char, rest: string)
    requires q == '\'' || q == '"'
    ensures DecodeEscape(['\\'] + EscapeTail(c, q) + rest, q) == Some((c, 1 + |EscapeTail(c, q)|))
  {
    var t := ['\\'] + EscapeTail(c, q) + rest;
    if c == '\\' || c == q || c == '\t' || c == '\n' || c == '\r' {
      assert t[1] == EscapeTail(c, q)[0];
    } else {
      DecodeHexEscape(c, q, rest);
    }
  }

  /** A character escaped by its code reads back from the hex digits. */
  lemma {:induction false} DecodeHexEscape(c: char, q: char, rest: string)
    requires q == '\'' || q == '"'
    requires c != '\\' && c != q && c != '\t' && c != '\n' && c != '\r'
    ensures DecodeEscape(['\\'] + EscapeTail(c, q) + rest, q) == Some((c, 1 + |EscapeTail(c, q)|))
  {
    var t := ['\\'] + EscapeTail(c, q) + rest;
    if c as int < 0x100 {
      assert t[1] == 'x' && t[2..4] == Hex(c as int, 2) by {
        assert EscapeTail(c, q) == "x" + Hex(c as int, 2);
      }
      assert HexNumber(t[2..4]) == Some(c as int) by {
        assert Pow16(2) == 0x100;
        HexRoundTrip(c as int, 2);
      }
    } else if c as int < 0x1_0000 {
      assert t[1] == 'u' && t[2..6] == Hex(c as int, 4) by {
        assert EscapeTail(c, q) == "u" + Hex(c as int, 4);
      }
      assert HexNumber(t[2..6]) == Some(c as int) by {
        assert Pow16(4) == 0x1_0000;
        HexRoundTrip(c as int, 4);
      }
    } else {
      assert t[1] == 'U' && t[2..10] == Hex(c as int, 8) by {
        assert EscapeTail(c, q) == "U" + Hex(c as int, 8);
      }
      assert HexNumber(t[2..10]) == Some(c as int) by {
        assert Pow16(8) == 0x1_0000_0000;
        HexRoundTrip(c as int, 8);
      }
    }
  }

  /** One decoded unit followed by the rest of the body: the text `t` is
      the unit `e` standing for `c`, then a body reading as `body`. */
  lemma {:induction false} ParseBodyCons(t: string, e: string, tail: string, q: char, c: char, body: string, m: nat, text: string, n: nat)
    requires t == e + tail && e != [] && t[0] != q
    requires DecodeUnit(t, q) == Some((c, |e|))
    requires ParseBody(tail, q) == Some((body, m))
    requires text == [c] + body && n == |e| + m
    ensures ParseBody(t, q) == Some((text, n))
  {
    assert t[|e|..] == tail;
  }

  /** Escaping a non-empty text is escaping its first character, then the
      rest. */
  lemma EscapeCons(s: string, q: char, rest: string)
    requires s != []
    ensures Escape(s, q) + [q] + rest == EscapeChar(s[0], q) + (Escape(s[1..], q) + [q] + rest)
    ensures |Escape(s, q)| == |EscapeChar(s[0], q)| + |Escape(s[1..], q)|
  {
  }

  /** The body of a quoted literal written by repr reads back as the text
      it escapes, and ends just after the closing quote. */
  lemma {:induction false} ParseEscaped(s: string, q: char, rest: string)
    requires q == '\'' || q == '"'
    ensures ParseBody(Escape(s, q) + [q] + rest, q) == Some((s, |Escape(s, q)| + 1))
    decreases |s|
  {
    if s == [] {
      assert Escape(s, q) + [q] + rest == [q] + rest;
    } else {
      ParseEscaped(s[1..], q, rest);
      ParseEscapedStep(s, q, rest);
    }
  }

  lemma {:induction false} ParseEscapedStep(s: string, q: char, rest: string)
    requires q == '\'' || q == '"'
    requires s != []
    requires ParseBody(Escape(s[1..], q) + [q] + rest, q) == Some((s[1..], |Escape(s[1..], q)| + 1))
    ensures ParseBody(Escape(s, q) + [q] + rest, q) == Some((s, |Escape(s, q)| + 1))
  {
    var e := EscapeChar(s[0], q);
    var tail := Escape(s[1..], q) + [q] + rest;
    DecodeEscapeChar(s[0], q, tail);
    EscapeCons(s, q, rest);
    assert s == [s[0]] + s[1..];
    ParseBodyCons(Escape(s, q) + [q] + rest, e, tail, q, s[0], s[1..], |Escape(s[1..], q)| + 1, s, |Escape(s, q)| + 1);
  }

  /** repr can be read back: the literal at the start of repr(s) + rest is s,
      and it ends exactly where repr(s) ends. */
  lemma {:induction false} ReprRoundTrip(s: string, rest: string)
    ensures ParseRepr(Repr(s) + rest) == Some((s, |Repr(s)|))
  {
    var q := QuoteFor(s);
    var tail := Escape(s, q) + [q] + rest;
    var t := Repr(s) + rest;
    assert t[0] == q && t[1..] == tail by {
      assert t == [q] + tail;
    }
    assert ParseBody(tail, q) == Some((s, |Escape(s, q)| + 1)) by {
      ParseEscaped(s, q, rest);
    }
  }

  lemma {:induction false} ParseLastItem(x: string)
    ensures ParseItems(Repr(x) + "]") == Some([x])
  {
    var r := Repr(x);
    ReprRoundTrip(x, "]");
    assert (r + "]")[|r|..] == "]";
  }

  lemma {:induction false} ParseNextItem(x: string, u: string)
    ensures ParseItems(Repr(x) + ", " + u)
            == match ParseItems(u) case None => None case Some(xs) => Some([x] + xs)
  {
    var r := Repr(x);
    var tail := ", " + u;
    var t := Repr(x) + ", " + u;
    assert ParseRepr(t) == Some((x, |r|)) && t[|r|..] == tail by {
      assert t == r + tail;
      ReprRoundTrip(x, tail);
    }
    assert tail[..2] == ", " && tail[2..] == u;
    assert tail != "]";
  }

  lemma {:induction false} ItemsRoundTrip(xs: seq<string>)
    requires xs != []
    ensures ParseItems(ReprItems(xs) + "]") == Some(xs)
    decreases |xs|
  {
    if |xs| == 1 {
      ParseLastItem(xs[0]);
      assert xs == [xs[0]];
    } else {
      var u := ReprItems(xs[1..]) + "]";
      assert ReprItems(xs) + "]" == Repr(xs[0]) + ", " + u;
      ParseNextItem(xs[0], u);
      ItemsRoundTrip(xs[1..]);
      assert [xs[0]] + xs[1..] == xs;
    }
  }

  /** The rendering of the references can be read back into the same list,
      so the prompt carries every reference, in order and unaltered. */
  lemma {:induction false} ReprListRoundTrip(xs: seq<string>)
    ensures ParseReprList(ReprList(xs)) == Some(xs)
  {
    if xs != [] {
      var items := ReprItems(xs);
      assert |items| >= 2 by {
        if |xs| > 1 { assert items == Repr(xs[0]) + ", " + ReprItems(xs[1..]); }
      }
      var t := ReprList(xs);
      assert t == "[" + (items + "]");
      assert t[1..] == items + "]" && t != "[]";
      ItemsRoundTrip(xs);
    }
  }

  // ---------------------------------------------------------------------

  /** The user prompt: the template, the query as it is, and the rendered
      reference list. */
  function UserPrompt(template: string, query: string, references: seq<string>): (p: string)
    ensures template <= p
    ensures var tail := ReprList(references);
            |tail| <= |p| && p[|p| - |tail|..] == tail
  {
    var p := template + "\n\nUser Query: " + query + "\n\nReferences : " + ReprList(references);
    assert p == (template + "\n\nUser Query: " + query + "\n\nReferences : ") + ReprList(references);
    p
  }

  /** generate_response: reads the prompts, builds the user prompt and asks
      for a completion. Every failure (no prompt file, a missing key, a falsy
      query object reaching the unbound user_prompt) is caught and gives
      None; it never raises. */
  function GenerateResponse(service: LLMService, prompts: Option<map<string, string>>,
                            queryObject: Option<QueryObject>): (r: Option<string>)
    ensures prompts.None? || "system_prompt" !in prompts.value ==> r.None?
    ensures queryObject.None? ==> r.None?
    ensures prompts.Some? && "user_prompt" !in prompts.value ==> r.None?
    ensures prompts.Some? && "system_prompt" in prompts.value && "user_prompt" in prompts.value
            && queryObject.Some? ==>
              r == Completion(service,
                              UserPrompt(prompts.value["user_prompt"], queryObject.value.query,
                                         queryObject.value.references),
                              prompts.value["system_prompt"])
  {
    match prompts
    case None => None
    case Some(ps) =>
      if "system_prompt" !in ps then None
      else if queryObject.None? then None
      else if "user_prompt" !in ps then None
      else
        var userPrompt := UserPrompt(ps["user_prompt"], queryObject.value.query, queryObject.value.references);
        Completion(service, userPrompt, ps["system_prompt"])
  }

  /** What reaches the chat model: the system prompt unchanged as the first
      message, and a user message that starts with the template and ends with
      a rendering the references can be read back from. */
  lemma {:induction false} RequestCarriesPrompts(systemPrompt: string, template: string, q: QueryObject)
    ensures var msgs := ChatRequest(systemPrompt, UserPrompt(template, q.query, q.references));
            && msgs[0].role == System && msgs[0].content == systemPrompt
            && msgs[1].role == User && template <= msgs[1].content
            && exists n :: 0 <= n <= |msgs[1].content| && ParseReprList(msgs[1].content[n..]) == Some(q.references)
  {
    var p := UserPrompt(template, q.query, q.references);
    var tail := ReprList(q.references);
    ReprListRoundTrip(q.references);
    assert p[|p| - |tail|..] == tail;
  }
}
