/**
 * The wire message and its decoder (`QueueHandler.decode_message`): a JSON
 * object is tried first; a body that is not JSON is read as the legacy line
 * `date:min:sec:path:ACTION:size:message`.
 */
module IngestMessages {
  import opened Wrappers
  import opened PyStr
  import opened JsonValue

  datatype IngestMessage = IngestMessage(
    datetime: string,
    filepath: string,
    action: string,
    filesize: string,
    message: string)

  /** What `json.loads` made of the body: no JSON at all, or a parsed document. */
  datatype JsonParse = NotJson | Parsed(doc: Json)

  const FieldNames: set<string> := {"datetime", "filepath", "action", "filesize", "message"}

  /** `IngestMessage(**msg)` for a parsed JSON document. */
  function FromJson(doc: Json): Result<IngestMessage>
  {
    match doc
    case JObj(f) =>
      if f.Keys != FieldNames then Err(TypeError)
      else if f["datetime"].JStr? && f["filepath"].JStr? && f["action"].JStr?
              && f["filesize"].JStr? && f["message"].JStr? then
        Ok(IngestMessage(f["datetime"].s, f["filepath"].s, f["action"].s, f["filesize"].s, f["message"].s))
      else Err(TypeError)
    case _ => Err(TypeError)
  }

  /** The legacy branch: strip, split on ':', pick the six fixed fields. */
  function DecodeLegacy(body: string): Result<IngestMessage>
  {
    var parts := Split(Strip(body), ':');
    if |parts| < 6 then Err(IndexError)
    else Ok(IngestMessage(Join(":", parts[..3]), parts[3], parts[4], parts[5], Join(":", parts[6..])))
  }

  /** `decode_message(body)`, with `json.loads(body)` given as `parsed`. */
  function DecodeMessage(body: string, parsed: JsonParse): Result<IngestMessage>
  {
    match parsed
    case NotJson => DecodeLegacy(body)
    case Parsed(doc) => FromJson(doc)
  }

  /** The legacy line `datetime:filepath:action:filesize:message` built from the five fields. */
  function LegacyLine(m: IngestMessage): string
  {
    m.datetime + ":" + m.filepath + ":" + m.action + ":" + m.filesize + ":" + m.message
  }

  /** The structured form of a message: a JSON object with the five string fields. */
  function StructuredForm(m: IngestMessage): Json
  {
    JObj(map["datetime" := JStr(m.datetime), "filepath" := JStr(m.filepath), "action" := JStr(m.action),
             "filesize" := JStr(m.filesize), "message" := JStr(m.message)])
  }

  /** The legacy decode succeeds exactly when the stripped line holds at least five colons. */
  lemma LegacyDecodeSucceedsIff(body: string)
    ensures DecodeLegacy(body).Ok? <==> Count(Strip(body), ':') >= 5
    ensures DecodeLegacy(body).Err? ==> DecodeLegacy(body).error == IndexError
  {
    SplitLength(Strip(body), ':');
  }

  /**
   * The decoded fields are the pieces of the stripped line: the datetime is
   * pieces 0-2 and the message pieces 6 onward, each joined back with ':',
   * so the fields rebuild the stripped line.
   */
  lemma LegacyFieldsRebuildLine(body: string)
    requires DecodeLegacy(body).Ok?
    ensures var m := DecodeLegacy(body).value;
            var line := Strip(body);
            if Count(line, ':') == 5 then LegacyLine(m) == line + ":" else LegacyLine(m) == line
  {
    var line := Strip(body);
    SplitLength(line, ':');
    JoinSplit(line, ':');
    LegacyLineOfPieces(Split(line, ':'));
  }

  /** The legacy line of the fields picked from six or more pieces is the pieces joined, plus a ':' when there are exactly six. */
  lemma LegacyLineOfPieces(parts: seq<string>)
    requires |parts| >= 6
    ensures var m := IngestMessage(Join(":", parts[..3]), parts[3], parts[4], parts[5], Join(":", parts[6..]));
      LegacyLine(m) == if |parts| == 6 then Join(":", parts) + ":" else Join(":", parts)
  {
    JoinSnoc(parts[..3], parts[3]);
    assert parts[..3] + [parts[3]] == parts[..4];
    JoinSnoc(parts[..4], parts[4]);
    assert parts[..4] + [parts[4]] == parts[..5];
    JoinSnoc(parts[..5], parts[5]);
    assert parts[..5] + [parts[5]] == parts[..6];
    if |parts| == 6 {
      assert parts[..6] == parts;
      assert Join(":", parts[6..]) == [];
    } else {
      JoinAppend(parts[..6], parts[6..]);
      assert parts[..6] + parts[6..] == parts;
    }
  }

  /** Joining one more piece appends a separator and that piece. */
  lemma JoinSnoc(a: seq<string>, x: string)
    requires |a| >= 1
    ensures Join(":", a + [x]) == Join(":", a) + ":" + x
  {
    JoinAppend(a, [x]);
  }

  /** Joining two non-empty lists of pieces puts one separator between them. */
  lemma {:induction false} JoinAppend(a: seq<string>, b: seq<string>)
    requires |a| >= 1 && |b| >= 1
    ensures Join(":", a + b) == Join(":", a) + ":" + Join(":", b)
    decreases |a|
  {
    if |a| == 1 {
      assert (a + b)[1..] == b;
    } else {
      assert (a + b)[1..] == a[1..] + b;
      JoinAppend(a[1..], b);
    }
  }

  /** Stripping ignores whitespace added around the line. */
  lemma StripPadding(pre: string, s: string, post: string)
    requires forall i :: 0 <= i < |pre| ==> IsSpace(pre[i])
    requires forall i :: 0 <= i < |post| ==> IsSpace(post[i])
    ensures Strip(pre + s + post) == Strip(s)
  {
    assert pre + s + post == pre + (s + post);
    LStripSpaces(pre, s + post);
    var l := LStrip(s);
    if l == [] {
      assert forall i :: 0 <= i < |s| ==> IsSpace(s[i]);
      LStripSpaces(s, post);
      LStripAllSpaces(post);
    } else {
      LStripKeepsSuffix(s, post);
      RStripSpaces(l, post);
    }
  }

  lemma {:induction false} LStripSpaces(pre: string, s: string)
    requires forall i :: 0 <= i < |pre| ==> IsSpace(pre[i])
    ensures LStrip(pre + s) == LStrip(s)
    decreases |pre|
  {
    if pre != [] {
      assert (pre + s)[0] == pre[0];
      assert (pre + s)[1..] == pre[1..] + s;
      LStripSpaces(pre[1..], s);
    } else {
      assert pre + s == s;
    }
  }

  lemma LStripAllSpaces(s: string)
    requires forall i :: 0 <= i < |s| ==> IsSpace(s[i])
    ensures LStrip(s) == []
  {
    LStripSpaces(s, []);
    assert s + [] == s;
  }

  lemma {:induction false} LStripKeepsSuffix(s: string, post: string)
    requires LStrip(s) != []
    ensures LStrip(s + post) == LStrip(s) + post
    decreases |s|
  {
    assert (s + post)[0] == s[0];
    if IsSpace(s[0]) {
      assert (s + post)[1..] == s[1..] + post;
      LStripKeepsSuffix(s[1..], post);
    }
  }

  lemma {:induction false} RStripSpaces(s: string, post: string)
    requires forall i :: 0 <= i < |post| ==> IsSpace(post[i])
    ensures RStrip(s + post) == RStrip(s)
    decreases |post|
  {
    if post != [] {
      var sp := s + post;
      assert sp[|sp| - 1] == post[|post| - 1];
      assert sp[..|sp| - 1] == s + post[..|post| - 1];
      RStripSpaces(s, post[..|post| - 1]);
    } else {
      assert s + post == s;
    }
  }

  /** Whitespace around a legacy line never reaches any field: the decode is the same without it. */
  lemma LegacyDecodeIgnoresPadding(pre: string, body: string, post: string)
    requires forall i :: 0 <= i < |pre| ==> IsSpace(pre[i])
    requires forall i :: 0 <= i < |post| ==> IsSpace(post[i])
    ensures DecodeMessage(pre + body + post, NotJson) == DecodeMessage(body, NotJson)
  {
    StripPadding(pre, body, post);
  }

  /**
   * Round trip of the legacy form: a message whose datetime holds exactly two
   * colons, whose path, action and size hold none, and whose line has no
   * outer whitespace decodes back from its line unchanged; the message part
   * may hold any number of colons.
   */
  lemma LegacyRoundTrip(m: IngestMessage)
    requires Count(m.datetime, ':') == 2
    requires ':' !in m.filepath && ':' !in m.action && ':' !in m.filesize
    requires IsStripped(LegacyLine(m))
    ensures DecodeMessage(LegacyLine(m), NotJson) == Ok(m)
  {
    var line := LegacyLine(m);
    StripStripped(line);
    var parts := SplitLegacyLine(m);
    JoinSplit(m.datetime, ':');
    JoinSplit(m.message, ':');
  }

  /** How the legacy line of a message splits on ':'. */
  lemma SplitLegacyLine(m: IngestMessage) returns (parts: seq<string>)
    requires Count(m.datetime, ':') == 2
    requires ':' !in m.filepath && ':' !in m.action && ':' !in m.filesize
    ensures parts == Split(LegacyLine(m), ':')
    ensures |parts| >= 7
    ensures parts[..3] == Split(m.datetime, ':')
    ensures parts[3] == m.filepath && parts[4] == m.action && parts[5] == m.filesize
    ensures parts[6..] == Split(m.message, ':')
  {
    var x1 := m.datetime + ":" + m.filepath;
    var x2 := x1 + ":" + m.action;
    var x3 := x2 + ":" + m.filesize;
    assert LegacyLine(m) == x3 + ":" + m.message;
    SplitLength(m.datetime, ':');
    SplitAround(m.datetime, m.filepath, ':');
    SplitFree(m.filepath, ':');
    SplitAround(x1, m.action, ':');
    SplitFree(m.action, ':');
    SplitAround(x2, m.filesize, ':');
    SplitFree(m.filesize, ':');
    SplitAround(x3, m.message, ':');
    var dt := Split(m.datetime, ':');
    parts := Split(LegacyLine(m), ':');
    assert parts == dt + [m.filepath] + [m.action] + [m.filesize] + Split(m.message, ':');
  }

  /** The structured form decodes to the same message as the legacy line. */
  lemma StructuredAgreesWithLegacy(m: IngestMessage, body: string)
    requires Count(m.datetime, ':') == 2
    requires ':' !in m.filepath && ':' !in m.action && ':' !in m.filesize
    requires IsStripped(LegacyLine(m))
    ensures DecodeMessage(body, Parsed(StructuredForm(m))) == DecodeMessage(LegacyLine(m), NotJson) == Ok(m)
  {
    assert StructuredForm(m).fields.Keys == FieldNames;
    LegacyRoundTrip(m);
  }

  /**
   * JSON is tried first and only a body that is not JSON reaches the split:
   * a JSON body never fails with IndexError, and one that is not an object
   * with exactly the five fields fails with TypeError.
   */
  lemma JsonBodyNeverIndexError(body: string, doc: Json)
    ensures DecodeMessage(body, Parsed(doc)) != Err(IndexError)
    ensures !(doc.JObj? && doc.fields.Keys == FieldNames) ==> DecodeMessage(body, Parsed(doc)) == Err(TypeError)
  {
  }
}
