/**
 * The suggestion provider: a keyword lookup over fixed tip lists, the parser
 * for the remote completion's reply, and the choice between the two.
 * The HTTP exchange itself is not modelled; its outcome is an input.
 */
module AiService {
  import opened Wrappers
  import opened Text

  const ReportTips: seq<string> := [
    "Break it down into sections",
    "Start with an outline of key points",
    "Gather necessary data first",
    "Set uninterrupted time blocks for writing"
  ]

  const MeetingTips: seq<string> := [
    "Prepare an agenda beforehand",
    "Send calendar invites with objectives",
    "Take notes during the meeting",
    "Follow up with action items"
  ]

  const DesignTips: seq<string> := [
    "Start with low-fidelity wireframes",
    "Gather inspiration from similar projects",
    "Get early feedback on concepts",
    "Create a design system for consistency"
  ]

  const CodeTips: seq<string> := [
    "Break feature into smaller tasks",
    "Write tests before implementation",
    "Use version control for changes",
    "Document your approach"
  ]

  const EmailTips: seq<string> := [
    "Draft key points first",
    "Keep it concise and focused",
    "Proofread before sending",
    "Use a clear subject line"
  ]

  const DefaultTips: seq<string> := [
    "Break the task into smaller steps",
    "Set a specific deadline",
    "Identify resources you'll need",
    "Remove distractions before starting"
  ]

  predicate MentionsReport(clean: string) { Contains(clean, "report") }
  predicate MentionsMeeting(clean: string) { Contains(clean, "meeting") }
  predicate MentionsDesign(clean: string) { Contains(clean, "design") }
  predicate MentionsCode(clean: string) { Contains(clean, "code") || Contains(clean, "develop") }
  predicate MentionsEmail(clean: string) { Contains(clean, "email") || Contains(clean, "message") }

  /**
   * The offline suggestions for a title: the tips of the first keyword
   * category the lower-cased title mentions, tried in the order report,
   * meeting, design, code/develop, email/message; the general tips otherwise.
   */
  function FallbackSuggestions(title: string): (r: seq<string>)
    ensures |r| == 4
    ensures forall i :: 0 <= i < |r| ==> r[i] != ""
    ensures r == ReportTips <==> MentionsReport(ToLower(title))
    ensures r == MeetingTips <==> !MentionsReport(ToLower(title)) && MentionsMeeting(ToLower(title))
    ensures r == DesignTips <==>
      !MentionsReport(ToLower(title)) && !MentionsMeeting(ToLower(title)) && MentionsDesign(ToLower(title))
    ensures r == CodeTips <==>
      !MentionsReport(ToLower(title)) && !MentionsMeeting(ToLower(title)) && !MentionsDesign(ToLower(title))
      && MentionsCode(ToLower(title))
    ensures r == EmailTips <==>
      !MentionsReport(ToLower(title)) && !MentionsMeeting(ToLower(title)) && !MentionsDesign(ToLower(title))
      && !MentionsCode(ToLower(title)) && MentionsEmail(ToLower(title))
    ensures r == DefaultTips <==>
      !MentionsReport(ToLower(title)) && !MentionsMeeting(ToLower(title)) && !MentionsDesign(ToLower(title))
      && !MentionsCode(ToLower(title)) && !MentionsEmail(ToLower(title))
  {
    var clean := ToLower(title);
    if MentionsReport(clean) then ReportTips
    else if MentionsMeeting(clean) then MeetingTips
    else if MentionsDesign(clean) then DesignTips
    else if MentionsCode(clean) then CodeTips
    else if MentionsEmail(clean) then EmailTips
    else DefaultTips
  }

  /** The lookup ignores letter case. */
  lemma FallbackIgnoresCase(title: string)
    ensures FallbackSuggestions(ToLower(title)) == FallbackSuggestions(title)
  {
    ToLowerIdempotent(title);
  }

  /** Characters the reply parser strips from the front of a line: digits, `-`, `.` and whitespace. */
  predicate IsMarker(c: char) {
    '0' <= c <= '9' || c == '-' || c == '.' || IsSpace(c)
  }

  /** The index of the first character at or after `from` that is not markup. */
  function MarkerEnd(line: string, from: nat): (n: nat)
    requires from <= |line|
    ensures from <= n <= |line|
    ensures forall k :: from <= k < n ==> IsMarker(line[k])
    ensures n == |line| || !IsMarker(line[n])
    decreases |line| - from
  {
    if from < |line| && IsMarker(line[from]) then MarkerEnd(line, from + 1) else from
  }

  /** Removes the leading run of list markup from a line. */
  function StripMarker(line: string): (r: string)
    ensures |r| <= |line|
    ensures OccursAt(line, r, |line| - |r|)
    ensures forall k :: 0 <= k < |line| - |r| ==> IsMarker(line[k])
    ensures r == [] || !IsMarker(r[0])
  {
    line[MarkerEnd(line, 0)..]
  }

  /**
   * One suggestion from one reply line: markup stripped from the front, then
   * trimmed. The result starts right where the leading markup ends and is
   * followed only by whitespace.
   */
  function CleanLine(line: string): (r: string)
    ensures r == [] || (!IsMarker(r[0]) && !IsSpace(r[|r| - 1]))
    ensures OccursAt(line, r, MarkerEnd(line, 0))
    ensures IsBlank(line[MarkerEnd(line, 0) + |r|..])
  {
    StripThenTrim(line);
    Trim(StripMarker(line))
  }

  /** Trimming the stripped line removes whitespace at its end only. */
  lemma StripThenTrim(line: string)
    ensures var r := Trim(StripMarker(line));
      (r == [] || (!IsMarker(r[0]) && !IsSpace(r[|r| - 1])))
      && OccursAt(line, r, MarkerEnd(line, 0)) && IsBlank(line[MarkerEnd(line, 0) + |r|..])
  {
    var stripped := StripMarker(line);
    var m := MarkerEnd(line, 0);
    assert stripped == line[m..];
    var r := Trim(stripped);
    var a :| OccursAt(stripped, r, a) && IsBlank(stripped[..a]) && IsBlank(stripped[a + |r|..]);
    // The stripped line starts with no whitespace, so trimming removes nothing in front.
    BlankPrefixStartsWithSpace(stripped, a);
    OccursInSuffix(line, m, r, 0);
    assert line[m + |r|..] == stripped[|r|..];
  }

  /** A cleaned line is a piece of the line it came from. */
  lemma CleanLineOccurs(line: string)
    ensures exists i :: OccursAt(line, CleanLine(line), i)
  {
    assert OccursAt(line, CleanLine(line), MarkerEnd(line, 0));
  }

  /** The lines that are not blank, in their original order. */
  function KeepNonBlank(lines: seq<string>): (r: seq<string>)
    ensures |r| <= |lines|
    ensures forall i :: 0 <= i < |r| ==> !IsBlank(r[i])
    ensures forall i :: 0 <= i < |r| ==> r[i] in lines
  {
    if lines == [] then []
    else if IsBlank(lines[0]) then KeepNonBlank(lines[1..])
    else [lines[0]] + KeepNonBlank(lines[1..])
  }

  /** Keeping the non-blank lines of a concatenation keeps those of each part, in order. */
  lemma {:induction false} KeepNonBlankAppend(a: seq<string>, b: seq<string>)
    ensures KeepNonBlank(a + b) == KeepNonBlank(a) + KeepNonBlank(b)
  {
    if a != [] {
      assert (a + b)[1..] == a[1..] + b;
      KeepNonBlankAppend(a[1..], b);
    } else {
      assert a + b == b;
    }
  }

  /** A line survives the filter exactly when it is not blank. */
  lemma {:induction false} KeepNonBlankMembers(lines: seq<string>, line: string)
    ensures line in KeepNonBlank(lines) <==> line in lines && !IsBlank(line)
  {
    if lines != [] {
      KeepNonBlankMembers(lines[1..], line);
      assert lines == [lines[0]] + lines[1..];
    }
  }

  function CleanAll(lines: seq<string>): (r: seq<string>)
    ensures |r| == |lines|
    ensures forall i :: 0 <= i < |r| ==> r[i] == CleanLine(lines[i])
  {
    if lines == [] then [] else [CleanLine(lines[0])] + CleanAll(lines[1..])
  }

  /** The non-blank lines of a reply. */
  function NonBlankLines(content: string): seq<string> {
    KeepNonBlank(SplitLines(content))
  }

  /**
   * The reply parser: split on line feeds, drop blank lines, strip leading
   * markup and trim each, keep the first four.
   */
  function ParseSuggestions(content: string): (r: seq<string>)
    ensures |r| <= 4
    ensures |r| == if |NonBlankLines(content)| < 4 then |NonBlankLines(content)| else 4
    ensures forall i :: 0 <= i < |r| ==> r[i] == CleanLine(NonBlankLines(content)[i])
    ensures forall i :: 0 <= i < |r| ==> r[i] == [] || !IsMarker(r[i][0])
  {
    var cleaned := CleanAll(NonBlankLines(content));
    if |cleaned| <= 4 then cleaned else cleaned[..4]
  }

  /** No suggestion holds a line feed. */
  lemma ParseHasNoLineFeed(content: string, i: int)
    requires 0 <= i < |ParseSuggestions(content)|
    ensures '\n' !in ParseSuggestions(content)[i]
  {
    var line := NonBlankLines(content)[i];
    assert line in SplitLines(content);
    CleanLineOccurs(line);
    var j :| OccursAt(line, CleanLine(line), j);
    NoLineFeedInPiece(line, CleanLine(line), j);
  }

  /** What the remote endpoint gave back: no usable response at all, or an HTTP status and the first choice's text. */
  datatype ApiReply =
    | NetworkError                                  // fetch rejected, or the body was not JSON
    | Response(status: int, content: Option<string>) // content is None when the first choice has no message text

  datatype ApiError = RequestFailed(status: int) | NoContent | Unreachable

  /** `response.ok`: a status in the 200 range. */
  predicate IsOk(status: int) { 200 <= status <= 299 }

  /** The reply carries text the parser is run on. */
  predicate Usable(reply: ApiReply) {
    reply.Response? && IsOk(reply.status) && reply.content.Some? && reply.content.value != ""
  }

  /** The remote path: every failure is an error value, a usable reply is parsed. */
  function OpenAISuggestions(reply: ApiReply): (r: Result<seq<string>, ApiError>)
    ensures r.Ok? <==> Usable(reply)
    ensures r.Ok? ==> r.value == ParseSuggestions(reply.content.value) && |r.value| <= 4
    ensures reply.Response? && !IsOk(reply.status) ==> r == Err(RequestFailed(reply.status))
  {
    match reply
    case NetworkError => Err(Unreachable)
    case Response(status, content) =>
      if !IsOk(status) then Err(RequestFailed(status))
      else if content.None? || content.value == "" then Err(NoContent)
      else Ok(ParseSuggestions(content.value))
  }

  /** A stored credential counts only when it is a non-empty string. */
  predicate HasApiKey(apiKey: Option<string>) {
    apiKey.Some? && apiKey.value != ""
  }

  /**
   * Suggestions for a new task. Without a credential the fallback list is
   * used; with one, the remote reply is parsed, and any failure of the remote
   * path falls back too. It never fails.
   */
  function GenerateTaskSuggestions(title: string, apiKey: Option<string>, reply: ApiReply): (r: seq<string>)
    ensures |r| <= 4
    ensures !HasApiKey(apiKey) ==> r == FallbackSuggestions(title)
    ensures HasApiKey(apiKey) && !Usable(reply) ==> r == FallbackSuggestions(title)
    ensures HasApiKey(apiKey) && Usable(reply) ==> r == ParseSuggestions(reply.content.value)
  {
    if !HasApiKey(apiKey) then FallbackSuggestions(title)
    else
      match OpenAISuggestions(reply)
      case Ok(suggestions) => suggestions
      case Err(_) => FallbackSuggestions(title)
  }

  /** Without a credential the remote reply is never looked at. */
  lemma NoKeyIgnoresReply(title: string, apiKey: Option<string>, r1: ApiReply, r2: ApiReply)
    requires !HasApiKey(apiKey)
    ensures GenerateTaskSuggestions(title, apiKey, r1) == GenerateTaskSuggestions(title, apiKey, r2)
  {
  }

  /** A title about a meeting gets the meeting tips. */
  lemma FallbackMeetingExample()
    ensures FallbackSuggestions("Team meeting notes") == MeetingTips
  {
    var clean := ToLower("Team meeting notes");
    assert clean == "team meeting notes";
    MissingCharNotContained(clean, "report", 'r');
    assert OccursAt(clean, "meeting", 5);
  }

  /** A title with no keyword gets the general tips. */
  lemma FallbackDefaultExample()
    ensures FallbackSuggestions("xyz123") == DefaultTips
  {
    var clean := ToLower("xyz123");
    assert clean == "xyz123";
    MissingCharNotContained(clean, "report", 'r');
    MissingCharNotContained(clean, "meeting", 'm');
    MissingCharNotContained(clean, "design", 'd');
    MissingCharNotContained(clean, "code", 'c');
    MissingCharNotContained(clean, "develop", 'd');
    MissingCharNotContained(clean, "email", 'e');
    MissingCharNotContained(clean, "message", 'm');
  }

  /** The keyword order decides overlaps: a title with both "meeting" and "report" gets the report tips. */
  lemma FallbackOrderExample()
    ensures FallbackSuggestions("Meeting REPORT") == ReportTips
  {
    var clean := ToLower("Meeting REPORT");
    assert clean == "meeting report";
    assert OccursAt(clean, "report", 8);
  }

  /** A reply of only whitespace yields no suggestion at all. */
  lemma ParseBlankExample()
    ensures ParseSuggestions(" ") == []
  {
  }

  /** A line of bare list markup is not blank, so it yields an empty suggestion. */
  lemma ParseEmptyEntryExample()
    ensures ParseSuggestions("1.") == [""]
  {
    SplitSingleLine("1.");
    assert !IsBlank("1.") by { assert !IsSpace("1."[0]); }
    assert MarkerEnd("1.", 0) == 2;
  }
}
