/** The `POST /analyze` route: it takes a URL from the request body, scrapes
    the page's visible text, keeps its first 3000 characters, asks the local
    LLaMA server for a one-word sentiment and reduces the reply to
    positive, negative or neutral. The scraper and the LLaMA server are
    parameters: functions from what is sent to what comes back. */
module Analyze {
  import opened Common

  const TextLimit: nat := 3000

  const UrlRequired: string := "URL is required"
  const ScrapeFailed: string := "Failed to scrape content from URL"
  const LlamaFailed: string := "Failed to communicate with LLaMA API"

  const LlamaEndpoint: string := "http://localhost:8000/v1/chat/completions"
  const PromptPrefix: string :=
    "Perform sentiment analysis on this financial market text and respond with only \"positive\", \"neutral\", or \"negative\": \""

  datatype Sentiment = Positive | Neutral | Negative

  /** The route's replies: the two error statuses with their message, or the
      analysis. */
  datatype Reply =
    | BadRequest(error: string)
    | ServerError(error: string)
    | Analysis(sentiment: Sentiment, text: string, rawResponse: string)

  datatype Message = Message(role: string, content: string)

  /** The body and options of the request to the LLaMA server. */
  datatype LlamaRequest = LlamaRequest(endpoint: string, model: string, messages: seq<Message>,
                                       temperature: real, maxTokens: nat, timeoutMs: nat)

  /** What came back: the request failed (a network error, a timeout or an
      error status), the reply has no `choices[0].message.content`, or it has
      that content. */
  datatype LlamaOutcome = RequestFailed | NoContent | Content(text: string)

  /** `scrapedText.substring(0, 3000)`. */
  function TrimmedText(s: string): (t: string)
    ensures |t| == if |s| <= TextLimit then |s| else TextLimit
    ensures t == s[..|t|]
    ensures |s| <= TextLimit ==> t == s
  {
    if |s| <= TextLimit then s else s[..TextLimit]
  }

  /** The prompt: the fixed instruction, then the text inside double quotes. */
  function Prompt(text: string): (p: string)
    ensures |p| == |PromptPrefix| + |text| + 1
    ensures p[..|PromptPrefix|] == PromptPrefix && p[|PromptPrefix|..|p| - 1] == text && p[|p| - 1] == '"'
  {
    PromptPrefix + text + "\""
  }

  /** The quoted part of a prompt. */
  function QuotedText(prompt: string): string
    requires |prompt| >= |PromptPrefix| + 1
  {
    prompt[|PromptPrefix|..|prompt| - 1]
  }

  /** The prompt carries the whole trimmed text: reading back between the
      instruction and the closing quote gives it, so different texts give
      different prompts. */
  lemma PromptRoundTrip(text: string)
    ensures Prompt(text)[..|PromptPrefix|] == PromptPrefix
    ensures Prompt(text)[|Prompt(text)| - 1] == '"'
    ensures QuotedText(Prompt(text)) == text
  {
  }

  function Request(text: string): LlamaRequest
  {
    LlamaRequest(LlamaEndpoint, "llama", [Message("user", Prompt(text))], 0.2, 50, 10000)
  }

  /** The characters `String.prototype.trim` removes: the white space and
      line terminators of ECMAScript. */
  predicate IsSpace(c: char)
  {
    || c == '\t' || c == '\n' || c == '\U{000B}' || c == '\U{000C}' || c == '\r' || c == ' '
    || c == '\U{00A0}' || c == '\U{1680}' || ('\U{2000}' <= c <= '\U{200A}')
    || c == '\U{2028}' || c == '\U{2029}' || c == '\U{202F}' || c == '\U{205F}'
    || c == '\U{3000}' || c == '\U{FEFF}'
  }

  function TrimStart(s: string): (r: string)
    ensures |r| <= |s| && r == s[|s| - |r|..]
    ensures r != [] ==> !IsSpace(r[0])
    ensures forall i :: 0 <= i < |s| - |r| ==> IsSpace(s[i])
  {
    if s != [] && IsSpace(s[0]) then TrimStart(s[1..]) else s
  }

  function TrimEnd(s: string): (r: string)
    ensures |r| <= |s| && r == s[..|r|]
    ensures r != [] ==> !IsSpace(r[|r| - 1])
    ensures forall i :: |r| <= i < |s| ==> IsSpace(s[i])
  {
    if s != [] && IsSpace(s[|s| - 1]) then TrimEnd(s[..|s| - 1]) else s
  }

  /** `s.trim()`: the input without its leading and trailing white space;
      what is left is an inner slice of the input, everything cut off on
      either side is white space, and it neither starts nor ends with white
      space. */
  function Trim(s: string): (r: string)
    ensures |r| <= |s|
    ensures exists a :: TrimmedAt(s, r, a)
    ensures r != [] ==> !IsSpace(r[0]) && !IsSpace(r[|r| - 1])
  {
    var t := TrimStart(s);
    var r := TrimEnd(t);
    TrimBothEnds(s, t, r);
    r
  }

  /** Cutting white space off the front of `s`, giving `t`, and then off the
      back of `t`, giving `r`, leaves the slice of `s` that starts where the
      front white space ends. */
  lemma TrimBothEnds(s: string, t: string, r: string)
    requires |t| <= |s| && t == s[|s| - |t|..]
    requires forall i :: 0 <= i < |s| - |t| ==> IsSpace(s[i])
    requires |r| <= |t| && r == t[..|r|]
    requires forall i :: |r| <= i < |t| ==> IsSpace(t[i])
    requires t != [] ==> !IsSpace(t[0])
    requires r != [] ==> !IsSpace(r[|r| - 1])
    ensures TrimmedAt(s, r, |s| - |t|)
    ensures r != [] ==> !IsSpace(r[0]) && !IsSpace(r[|r| - 1])
  {
    TrailingSpace(s, t, r, |s| - |t|);
    assert r != [] ==> r[0] == t[0];
  }

  /** What `TrimEnd` cut off the tail `t` of `s` sits at the end of `s`. */
  lemma TrailingSpace(s: string, t: string, r: string, a: nat)
    requires a <= |s| && t == s[a..] && |r| <= |t|
    requires forall i :: |r| <= i < |t| ==> IsSpace(t[i])
    ensures forall i :: a + |r| <= i < |s| ==> IsSpace(s[i])
  {
    forall i | a + |r| <= i < |s|
      ensures IsSpace(s[i])
    {
      assert s[i] == t[i - a];
    }
  }

  /** `r` is the slice of `s` starting at `a`, with only white space cut off
      before and after it. */
  ghost predicate TrimmedAt(s: string, r: string, a: int)
  {
    && 0 <= a <= |s| - |r| && r == s[a..a + |r|]
    && (forall i :: 0 <= i < a ==> IsSpace(s[i]))
    && (forall i :: a + |r| <= i < |s| ==> IsSpace(s[i]))
  }

  function LowerChar(c: char): char
  {
    if 'A' <= c <= 'Z' then (c as int + 32) as char else c
  }

  function UpperChar(c: char): char
  {
    if 'a' <= c <= 'z' then (c as int - 32) as char else c
  }

  /** `toLowerCase` on the letters A to Z. */
  function Lower(s: string): (r: string)
    ensures |r| == |s| && forall i :: 0 <= i < |s| ==> r[i] == LowerChar(s[i])
  {
    seq(|s|, i requires 0 <= i < |s| => LowerChar(s[i]))
  }

  /** `toUpperCase` on the letters a to z. */
  function Upper(s: string): (r: string)
    ensures |r| == |s| && forall i :: 0 <= i < |s| ==> r[i] == UpperChar(s[i])
  {
    seq(|s|, i requires 0 <= i < |s| => UpperChar(s[i]))
  }

  /** `w` occurs in `s` starting at index `i`. */
  ghost predicate OccursAt(s: string, w: string, i: int)
  {
    0 <= i <= |s| - |w| && s[i..i + |w|] == w
  }

  /** An occurrence after the first position is an occurrence in the tail,
      one position earlier. */
  lemma OccursInTail(s: string, w: string)
    requires s != []
    ensures forall i :: i != 0 && OccursAt(s, w, i) ==> OccursAt(s[1..], w, i - 1)
    ensures forall i :: OccursAt(s[1..], w, i) ==> OccursAt(s, w, i + 1)
  {
    forall i | i != 0 && OccursAt(s, w, i)
      ensures OccursAt(s[1..], w, i - 1)
    {
      assert s[1..][i - 1..i - 1 + |w|] == s[i..i + |w|];
    }
    forall i | OccursAt(s[1..], w, i)
      ensures OccursAt(s, w, i + 1)
    {
      assert s[1..][i..i + |w|] == s[i + 1..i + 1 + |w|];
    }
  }

  /** `s.includes(w)`. */
  function Contains(s: string, w: string): (b: bool)
    ensures b <==> exists i :: OccursAt(s, w, i)
    decreases |s|
  {
    if |s| < |w| then false
    else if s[..|w|] == w then
      assert OccursAt(s, w, 0);
      true
    else
      var rest := Contains(s[1..], w);
      assert !OccursAt(s, w, 0);
      OccursInTail(s, w);
      rest
  }

  /** `content.trim().toLowerCase()`, the `rawResponse` of the reply: it has
      no white space at either end and no upper-case letter A to Z. */
  function Normalize(content: string): (r: string)
    ensures |r| <= |content|
    ensures r != [] ==> !IsSpace(r[0]) && !IsSpace(r[|r| - 1])
    ensures forall i :: 0 <= i < |r| ==> !('A' <= r[i] <= 'Z')
  {
    var t := Trim(content);
    LowerKeepsEnds(t);
    Lower(t)
  }

  /** Lowering a string without white space at its ends leaves none there,
      and leaves no letter A to Z anywhere. */
  lemma LowerKeepsEnds(t: string)
    requires t != [] ==> !IsSpace(t[0]) && !IsSpace(t[|t| - 1])
    ensures Lower(t) != [] ==> !IsSpace(Lower(t)[0]) && !IsSpace(Lower(t)[|t| - 1])
    ensures forall i :: 0 <= i < |t| ==> !('A' <= Lower(t)[i] <= 'Z')
  {
    if t != [] {
      LowerCharKeepsSpace(t[0]);
      LowerCharKeepsSpace(t[|t| - 1]);
    }
    forall i | 0 <= i < |t| {
      LowerCharKeepsSpace(t[i]);
    }
  }

  /** Lowering a character leaves no letter A to Z and does not change
      whether it is white space. */
  lemma LowerCharKeepsSpace(c: char)
    ensures !('A' <= LowerChar(c) <= 'Z')
    ensures IsSpace(LowerChar(c)) == IsSpace(c)
  {
    if 'A' <= c <= 'Z' {
      assert 'a' <= LowerChar(c) <= 'z';
      assert !IsSpace(c) && !IsSpace(LowerChar(c));
    }
  }

  /** The label: "positive" anywhere wins, then "negative", else neutral. */
  function Classify(raw: string): (s: Sentiment)
    ensures s == Positive <==> Contains(raw, "positive")
    ensures s == Negative <==> !Contains(raw, "positive") && Contains(raw, "negative")
    ensures s == Neutral <==> !Contains(raw, "positive") && !Contains(raw, "negative")
  {
    if Contains(raw, "positive") then Positive
    else if Contains(raw, "negative") then Negative
    else Neutral
  }

  /** The route. A missing or empty URL is rejected with 400; a scrape that
      throws, a LLaMA request that fails and a reply without content each
      give 500 with their message. A reply without content throws inside the
      same `try`: when `message` is there but `content` is not, `.trim()` is
      called on undefined; when `choices[0]` or `message` is missing, the
      optional chain yields undefined and `sentimentRaw.includes` throws. */
  function HandleAnalyze(url: Option<string>, scrape: string -> Option<string>,
                         llama: LlamaRequest -> LlamaOutcome): (r: Reply)
    ensures r.BadRequest? <==> url.None? || url.value == ""
    ensures r.BadRequest? ==> r.error == UrlRequired
    ensures r.ServerError? ==> r.error == ScrapeFailed || r.error == LlamaFailed
    ensures r.ServerError? && r.error == ScrapeFailed <==> !r.BadRequest? && scrape(url.value).None?
    ensures r.Analysis? ==>
              && scrape(url.value).Some?
              && r.text == TrimmedText(scrape(url.value).value)
              && llama(Request(r.text)).Content?
              && r.rawResponse == Normalize(llama(Request(r.text)).text)
              && r.sentiment == Classify(r.rawResponse)
  {
    if url.None? || url.value == "" then BadRequest(UrlRequired)
    else
      var scraped := scrape(url.value);
      if scraped.None? then ServerError(ScrapeFailed)
      else
        var text := TrimmedText(scraped.value);
        var outcome := llama(Request(text));
        if !outcome.Content? then ServerError(LlamaFailed)
        else
          var raw := Normalize(outcome.text);
          Analysis(Classify(raw), text, raw)
  }

  /** Once the URL is given and the page scraped, the route answers with an
      analysis exactly when the LLaMA server returns content; the text sent
      is the trimmed page text. */
  lemma AnalysisExactlyWhenContent(url: string, scrape: string -> Option<string>,
                                   llama: LlamaRequest -> LlamaOutcome)
    requires url != "" && scrape(url).Some?
    ensures var r := HandleAnalyze(Some(url), scrape, llama);
            r.Analysis? <==> llama(Request(TrimmedText(scrape(url).value))).Content?
  {
  }

  lemma {:induction false} TrimStartUpper(s: string)
    ensures TrimStart(Upper(s)) == Upper(TrimStart(s))
  {
    if s != [] {
      UpperCharKeepsSpace(s[0]);
      assert Upper(s)[0] == UpperChar(s[0]);
      assert Upper(s)[1..] == Upper(s[1..]);
      TrimStartUpper(s[1..]);
      if IsSpace(s[0]) {
        assert TrimStart(Upper(s)) == TrimStart(Upper(s[1..]));
      } else {
        assert TrimStart(Upper(s)) == Upper(s);
      }
    }
  }

  /** Raising a character does not change whether it is white space. */
  lemma UpperCharKeepsSpace(c: char)
    ensures IsSpace(UpperChar(c)) == IsSpace(c)
  {
    if 'a' <= c <= 'z' {
      assert 'A' <= UpperChar(c) <= 'Z';
      assert !IsSpace(c) && !IsSpace(UpperChar(c));
    }
  }

  lemma {:induction false} TrimEndUpper(s: string)
    ensures TrimEnd(Upper(s)) == Upper(TrimEnd(s))
  {
    if s != [] {
      UpperCharKeepsSpace(s[|s| - 1]);
      assert Upper(s)[|s| - 1] == UpperChar(s[|s| - 1]);
      assert Upper(s)[..|s| - 1] == Upper(s[..|s| - 1]);
      TrimEndUpper(s[..|s| - 1]);
    }
  }

  lemma LowerUpper(t: string)
    ensures Lower(Upper(t)) == Lower(t)
  {
    forall i | 0 <= i < |t|
      ensures LowerChar(UpperChar(t[i])) == LowerChar(t[i])
    {
    }
  }

  /** The label ignores the case of the reply: an upper-case "POSITIVE" is
      read as "positive". */
  lemma ClassifyIgnoresCase(content: string)
    ensures Normalize(Upper(content)) == Normalize(content)
    ensures Classify(Normalize(Upper(content))) == Classify(Normalize(content))
  {
    TrimStartUpper(content);
    TrimEndUpper(TrimStart(content));
    assert Trim(Upper(content)) == Upper(Trim(content));
    LowerUpper(Trim(content));
  }
}
