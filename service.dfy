/** Request assembly of the structured-analysis client
    (services/geminiService.ts, analyzeChat). The network call and JSON.parse
    are foreign: their outcome arrives as a Reply value. */
module Service {
  import opened Wrappers
  import opened Types

  /** String.prototype.split with a one-character separator: the maximal
      separator-free runs, at least one (possibly empty) segment. */
  function Split(s: string, sep: char): (r: seq<string>)
    ensures |r| >= 1
    ensures forall i :: 0 <= i < |r| ==> sep !in r[i]
    ensures |r| == 1 <==> sep !in s
    ensures sep !in s ==> r == [s]
  {
    if s == [] then [""]
    else
      var rest := Split(s[1..], sep);
      if s[0] == sep then [""] + rest
      else
        assert s == [s[0]] + s[1..];
        [[s[0]] + rest[0]] + rest[1..]
  }

  /** Array.prototype.join with a one-character separator. */
  function Join(parts: seq<string>, sep: char): string
    requires |parts| >= 1
  {
    if |parts| == 1 then parts[0] else parts[0] + [sep] + Join(parts[1..], sep)
  }

  /** Gluing a character onto the first segment glues it onto the join. */
  lemma JoinConsFirst(c: char, parts: seq<string>, sep: char)
    requires |parts| >= 1
    ensures Join([[c] + parts[0]] + parts[1..], sep) == [c] + Join(parts, sep)
  {
    var q := [[c] + parts[0]] + parts[1..];
    if |parts| > 1 {
      assert q[1..] == parts[1..];
      calc {
        Join(q, sep);
        q[0] + [sep] + Join(q[1..], sep);
        ([c] + parts[0]) + [sep] + Join(parts[1..], sep);
        [c] + (parts[0] + [sep] + Join(parts[1..], sep));
      }
    }
  }

  /** Splitting loses nothing: joining the segments gives back the input. */
  lemma {:induction false} JoinSplit(s: string, sep: char)
    ensures Join(Split(s, sep), sep) == s
  {
    if s != [] {
      var rest := Split(s[1..], sep);
      JoinSplit(s[1..], sep);
      assert s == [s[0]] + s[1..];
      if s[0] != sep {
        JoinConsFirst(s[0], rest, sep);
      }
    }
  }

  /** A separator-free head is exactly the first segment. */
  lemma {:induction false} SplitAfterHead(head: string, sep: char, tail: string)
    requires sep !in head
    ensures Split(head + [sep] + tail, sep) == [head] + Split(tail, sep)
  {
    if head == [] {
      assert head + [sep] + tail == [sep] + tail;
      assert ([sep] + tail)[1..] == tail;
    } else {
      var s := head + [sep] + tail;
      assert s[0] == head[0] && s[1..] == head[1..] + [sep] + tail;
      SplitAfterHead(head[1..], sep, tail);
      assert [head[0]] + head[1..] == head;
    }
  }

  /** The image payload: the second comma-separated segment when it is
      non-empty, otherwise the whole input. */
  function CleanBase64(image: string): (r: string)
    ensures r == image || (r != "" && ',' !in r && |Split(image, ',')| >= 2 && r == Split(image, ',')[1])
    ensures ',' !in image ==> r == image
    ensures |Split(image, ',')| >= 2 && Split(image, ',')[1] != "" ==> r == Split(image, ',')[1]
  {
    var segments := Split(image, ',');
    if |segments| >= 2 && segments[1] != "" then segments[1] else image
  }

  /** A data URL "<header>,<payload>" yields exactly its payload. */
  lemma DataUrlPayload(header: string, payload: string)
    requires ',' !in header && ',' !in payload && payload != ""
    ensures CleanBase64(header + "," + payload) == payload
  {
    assert header + "," + payload == header + [','] + payload;
    SplitAfterHead(header, ',', payload);
  }

  const ImageMimeType := "image/jpeg"
  const PromptPrefix := "分析这段聊天记录:\n"
  const MissingKeyMessage := "API Key is missing."
  const NoInputMessage := "请提供聊天文字或截图。"
  const EmptyReplyMessage := "未能生成分析结果。"

  datatype Part = InlineData(data: string, mimeType: string) | Text(text: string)

  /** What the model endpoint gives back: a transport error carrying its
      message, or a response text together with what JSON.parse made of it. */
  datatype Reply = Failed(message: string) | Replied(text: string, parsed: Result<AnalysisResult, string>)

  /** analyzeChat. An empty string stands for a missing key, text or image
      (all falsy in the source). `sent` is the part list handed to the model,
      or None when no request is made; `reply` is consulted only when one is. */
  method AnalyzeChat(apiKey: string, text: string, image: string, reply: Reply)
    returns (sent: Option<seq<Part>>, r: Result<AnalysisResult, string>)
    ensures apiKey == "" ==> sent == None && r == Err(MissingKeyMessage)
    ensures apiKey != "" && text == "" && image == "" ==> sent == None && r == Err(NoInputMessage)
    ensures sent.Some? <==> apiKey != "" && (text != "" || image != "")
    ensures sent.Some? ==> |sent.value| == (if image != "" then 1 else 0) + (if text != "" then 1 else 0)
    ensures sent.Some? && image != "" ==> sent.value[0] == InlineData(CleanBase64(image), ImageMimeType)
    ensures sent.Some? && text != "" ==> sent.value[|sent.value| - 1] == Text(PromptPrefix + text)
    ensures sent.Some? && reply.Failed? ==> r == Err(reply.message)
    ensures sent.Some? && reply.Replied? && reply.text == "" ==> r == Err(EmptyReplyMessage)
    ensures sent.Some? && reply.Replied? && reply.text != "" ==> r == reply.parsed
  {
    if apiKey == "" {
      return None, Err(MissingKeyMessage);
    }
    var parts: seq<Part> := [];
    if image != "" {
      var clean := CleanBase64(image);
      parts := parts + [InlineData(clean, ImageMimeType)];
    }
    if text != "" {
      parts := parts + [Text(PromptPrefix + text)];
    }
    if |parts| == 0 {
      return None, Err(NoInputMessage);
    }
    sent := Some(parts);
    match reply {
      case Failed(message) =>
        r := Err(message);
      case Replied(body, parsed) =>
        if body != "" {
          r := parsed;
        } else {
          r := Err(EmptyReplyMessage);
        }
    }
  }
}
