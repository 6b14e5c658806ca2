/** The server's design trajectory: the in-memory log of user commands and answers, and
    the HTML fragment the trajectory modal shows when the backend has none to give. */
module AppTrajectory {
  import opened Wrappers
  import opened Text
  import opened AppDesignTypes

  /** One logged entry. Entries the server writes itself always carry all three fields;
      a field the log lacks is `None` and takes the renderer's default. */
  datatype TrajMessage = TrajMessage(msgType: Option<string>, content: Option<string>, timestamp: Option<string>)

  function UserEntry(command: string, timestamp: string): TrajMessage
  {
    TrajMessage(Some("user"), Some(command), Some(timestamp))
  }

  function SystemEntry(response: string, timestamp: string): TrajMessage
  {
    TrajMessage(Some("system"), Some(response), Some(timestamp))
  }

  /** `current_trajectory`: the global log every request appends to. */
  class Trajectory {
    var messages: seq<TrajMessage>

    constructor ()
      ensures messages == []
    {
      messages := [];
    }

    /** `update_trajectory_with_user_command`; `timestamp` is `datetime.now().isoformat()`. */
    method AppendUserCommand(command: string, timestamp: string)
      modifies this
      ensures messages == old(messages) + [UserEntry(command, timestamp)]
    {
      messages := messages + [UserEntry(command, timestamp)];
    }

    /** `update_trajectory_with_ai_response`. */
    method AppendAiResponse(response: string, timestamp: string)
      modifies this
      ensures messages == old(messages) + [SystemEntry(response, timestamp)]
    {
      messages := messages + [SystemEntry(response, timestamp)];
    }

    /** The log updates of `new_design`. `backend` is `None` when the backend's reset
        request fails, else the `response` field of its answer. */
    method NewDesign(designType: string, backend: Option<Option<string>>, t1: string, t2: string)
      returns (answer: Option<string>)
      modifies this
      ensures backend.None? ==> answer.None? && messages == [UserEntry(NewDesignCommand(designType), t1)]
      ensures backend.Some? ==>
        answer == Some(NewDesignAnswer(designType, backend.value)) &&
        messages == [UserEntry(NewDesignCommand(designType), t1), SystemEntry(answer.value, t2)]
    {
      messages := [];
      AppendUserCommand(NewDesignCommand(designType), t1);
      if backend.None? {
        return None;
      }
      var text := NewDesignAnswer(designType, backend.value);
      AppendAiResponse(text, t2);
      answer := Some(text);
    }
  }

  // ------------------------------------------------------------ HTML rendering

  /** The trajectory handed to the renderer: an `error` field and a `messages` list,
      either of which may be absent. */
  datatype TrajectoryData = TrajectoryData(error: Option<string>, messages: Option<seq<TrajMessage>>)

  /** The pieces of markup the renderer emits, in order. */
  datatype Fragment =
    | Header
    | ErrorBlock(error: string)
    | ListOpen
    | BoxOpen(msgType: string)
    | MessageHeader(typeLabel: string)
    | Time(timestamp: string)
    | HeaderClose
    | Content(content: string)
    | BoxClose
    | ListClose
    | NoData
    | ContainerClose

  function Markup(f: Fragment): string
  {
    match f
    case Header =>
      "<div class='trajectory-container'><div class='trajectory-header'><h2>Design Trajectory</h2>"
      + "<p class='subtitle'>Evolution of your design over time</p></div>"
    case ErrorBlock(e) =>
      "<div class='error-message'><i class='fas fa-exclamation-circle'></i><p>" + e + "</p></div>"
    case ListOpen => "<div class='message-list'>"
    case BoxOpen(t) => "<div class='message-box " + t + "-message'>"
    case MessageHeader(l) => "<div class='message-header'><span class='message-type'>" + l + "</span>"
    case Time(t) => "<span class='message-time'>" + t + "</span>"
    case HeaderClose => "</div>"
    case Content(c) => "<div class='message-content content-collapsed'>" + c + "</div>"
    case BoxClose => "</div>"
    case ListClose => "</div>"
    case NoData => "<div class='no-data'>No trajectory data available yet.</div>"
    case ContainerClose => "</div>"
  }

  function RenderAll(fs: seq<Fragment>): string
  {
    ConcatMap(fs, Markup)
  }

  /** The fragments of one message box, with the defaults `system`, empty content and
      empty timestamp for missing fields. */
  function MessageFragments(m: TrajMessage): (fs: seq<Fragment>)
    ensures 5 <= |fs| <= 6 && fs[0].BoxOpen? && fs[|fs| - 1] == BoxClose
  {
    var t := m.msgType.GetOr("system");
    var time := m.timestamp.GetOr("");
    [BoxOpen(t), MessageHeader(Capitalize(t))]
    + (if time != [] then [Time(time)] else [])
    + [HeaderClose, Content(m.content.GetOr("")), BoxClose]
  }

  function MessagesFragments(ms: seq<TrajMessage>): seq<Fragment>
  {
    if ms == [] then [] else MessagesFragments(ms[..|ms| - 1]) + MessageFragments(ms[|ms| - 1])
  }

  /** The whole page fragment for some trajectory data. */
  function Fragments(data: TrajectoryData): seq<Fragment>
  {
    [Header] + BodyFragments(data) + [ContainerClose]
  }

  /** The loop body of `generate_trajectory_html`: the markup of one message box. */
  method RenderMessage(m: TrajMessage) returns (html: string)
    ensures html == RenderAll(MessageFragments(m))
  {
    var t := m.msgType.GetOr("system");
    var content := m.content.GetOr("");
    var time := m.timestamp.GetOr("");
    var done: seq<Fragment> := [];
    html := [];
    RenderSnoc(done, BoxOpen(t));
    html, done := html + Markup(BoxOpen(t)), done + [BoxOpen(t)];
    RenderSnoc(done, MessageHeader(Capitalize(t)));
    html, done := html + Markup(MessageHeader(Capitalize(t))), done + [MessageHeader(Capitalize(t))];
    if time != [] {
      RenderSnoc(done, Time(time));
      html, done := html + Markup(Time(time)), done + [Time(time)];
    }
    RenderSnoc(done, HeaderClose);
    html, done := html + Markup(HeaderClose), done + [HeaderClose];
    RenderSnoc(done, Content(content));
    html, done := html + Markup(Content(content)), done + [Content(content)];
    RenderSnoc(done, BoxClose);
    html, done := html + Markup(BoxClose), done + [BoxClose];
    assert done == MessageFragments(m);
  }

  /** The part of the page between the header and the closing tag. */
  function BodyFragments(data: TrajectoryData): seq<Fragment>
  {
    if data.error.Some? && data.error.value != [] then [ErrorBlock(data.error.value)]
    else if data.messages.Some? then [ListOpen] + MessagesFragments(data.messages.value) + [ListClose]
    else [NoData]
  }

  /** The message list of `generate_trajectory_html`: one box per message, in order. */
  method RenderMessageList(messages: seq<TrajMessage>) returns (html: string)
    ensures html == RenderAll([ListOpen] + MessagesFragments(messages) + [ListClose])
  {
    var done: seq<Fragment> := [];
    html := [];
    RenderSnoc(done, ListOpen);
    html, done := html + Markup(ListOpen), done + [ListOpen];
    var k := 0;
    while k < |messages|
      invariant 0 <= k <= |messages|
      invariant done == [ListOpen] + MessagesFragments(messages[..k])
      invariant html == RenderAll(done)
    {
      var box := RenderMessage(messages[k]);
      RenderAllAppend(done, MessageFragments(messages[k]));
      assert messages[..k + 1][..k] == messages[..k];
      html, done := html + box, done + MessageFragments(messages[k]);
      k := k + 1;
    }
    assert messages[..k] == messages;
    RenderSnoc(done, ListClose);
    html := html + Markup(ListClose);
  }

  /** `generate_trajectory_html`, which builds its string with `+=`. */
  method GenerateTrajectoryHtml(data: TrajectoryData) returns (html: string)
    ensures html == RenderAll(Fragments(data))
  {
    html := Markup(Header);
    RenderSingle(Header);
    var body := RenderBody(data);
    RenderAllAppend([Header], BodyFragments(data));
    html := html + body;
    RenderSnoc([Header] + BodyFragments(data), ContainerClose);
    html := html + Markup(ContainerClose);
  }

  /** The three branches of `generate_trajectory_html` between the header and the
      closing tag: the error, the message list or the no-data notice. */
  method RenderBody(data: TrajectoryData) returns (body: string)
    ensures body == RenderAll(BodyFragments(data))
  {
    if data.error.Some? && data.error.value != [] {
      body := Markup(ErrorBlock(data.error.value));
      RenderSingle(ErrorBlock(data.error.value));
    } else if data.messages.Some? {
      body := RenderMessageList(data.messages.value);
    } else {
      body := Markup(NoData);
      RenderSingle(NoData);
    }
  }

  // ---------------------------------------------------------------- lemmas

  lemma RenderSnoc(a: seq<Fragment>, f: Fragment)
    ensures RenderAll(a + [f]) == RenderAll(a) + Markup(f)
  {
    ConcatMapSnoc(a, f, Markup);
  }

  lemma RenderSingle(f: Fragment)
    ensures RenderAll([f]) == Markup(f)
  {
    ConcatMapSingle(f, Markup);
  }

  lemma RenderAllAppend(a: seq<Fragment>, b: seq<Fragment>)
    ensures RenderAll(a + b) == RenderAll(a) + RenderAll(b)
  {
    ConcatMapAppend(a, b, Markup);
  }

  function CountBoxes(fs: seq<Fragment>): nat
  {
    if fs == [] then 0 else CountBoxes(fs[..|fs| - 1]) + (if fs[|fs| - 1].BoxOpen? then 1 else 0)
  }

  function CountTimes(fs: seq<Fragment>): nat
  {
    if fs == [] then 0 else CountTimes(fs[..|fs| - 1]) + (if fs[|fs| - 1].Time? then 1 else 0)
  }

  /** Number of messages whose timestamp is present and not empty. */
  function CountTimed(ms: seq<TrajMessage>): nat
  {
    if ms == [] then 0
    else CountTimed(ms[..|ms| - 1]) + (if ms[|ms| - 1].timestamp.GetOr("") != [] then 1 else 0)
  }

  lemma {:induction false} CountAppend(a: seq<Fragment>, b: seq<Fragment>)
    ensures CountBoxes(a + b) == CountBoxes(a) + CountBoxes(b)
    ensures CountTimes(a + b) == CountTimes(a) + CountTimes(b)
    decreases |b|
  {
    if b == [] {
      assert a + b == a;
    } else {
      var b' := b[..|b| - 1];
      CountAppend(a, b');
      assert (a + b)[..|a + b| - 1] == a + b';
    }
  }

  /** Each message contributes one message box, and a time span exactly when its
      timestamp is not empty. */
  lemma {:induction false} MessageCounts(ms: seq<TrajMessage>)
    ensures CountBoxes(MessagesFragments(ms)) == |ms|
    ensures CountTimes(MessagesFragments(ms)) == CountTimed(ms)
    decreases |ms|
  {
    if ms != [] {
      var m := ms[|ms| - 1];
      MessageCounts(ms[..|ms| - 1]);
      CountAppend(MessagesFragments(ms[..|ms| - 1]), MessageFragments(m));
      MessageBoxCounts(m);
    }
  }

  /** One message box holds one box opening, and a time span exactly when the
      message's timestamp is not empty. */
  lemma MessageBoxCounts(m: TrajMessage)
    ensures CountBoxes(MessageFragments(m)) == 1
    ensures CountTimes(MessageFragments(m)) == if m.timestamp.GetOr("") != [] then 1 else 0
  {
    var t := m.msgType.GetOr("system");
    var time := m.timestamp.GetOr("");
    var a, b := [BoxOpen(t)], [MessageHeader(Capitalize(t))];
    var mid: seq<Fragment> := if time != [] then [Time(time)] else [];
    var c, d, e := [HeaderClose], [Content(m.content.GetOr(""))], [BoxClose];
    assert MessageFragments(m) == a + b + mid + c + d + e;
    Single(a[0]);
    Single(b[0]);
    Single(c[0]);
    Single(d[0]);
    Single(e[0]);
    if time != [] {
      Single(Time(time));
    }
    CountAppend(a, b);
    CountAppend(a + b, mid);
    CountAppend(a + b + mid, c);
    CountAppend(a + b + mid + c, d);
    CountAppend(a + b + mid + c + d, e);
  }

  /** The rendered page shows one message box per logged message and one time span per
      message with a timestamp; an error or a missing list gives no box at all. */
  lemma PageStructure(data: TrajectoryData)
    ensures data.error.Some? && data.error.value != [] ==>
      ErrorBlock(data.error.value) in Fragments(data) && CountBoxes(Fragments(data)) == 0
    ensures !(data.error.Some? && data.error.value != []) && data.messages.Some? ==>
      CountBoxes(Fragments(data)) == |data.messages.value| &&
      CountTimes(Fragments(data)) == CountTimed(data.messages.value)
    ensures !(data.error.Some? && data.error.value != []) && data.messages.None? ==>
      NoData in Fragments(data) && CountBoxes(Fragments(data)) == 0
  {
    var body := BodyFragments(data);
    Wrap(Header, body, ContainerClose);
    if data.error.Some? && data.error.value != [] {
      Single(ErrorBlock(data.error.value));
      assert Fragments(data)[1] == body[0];
    } else if data.messages.Some? {
      Wrap(ListOpen, MessagesFragments(data.messages.value), ListClose);
      MessageCounts(data.messages.value);
    } else {
      Single(NoData);
      assert Fragments(data)[1] == body[0];
    }
  }

  /** Tags that are neither message boxes nor time spans add nothing to the counts. */
  lemma Wrap(x: Fragment, body: seq<Fragment>, y: Fragment)
    requires !x.BoxOpen? && !x.Time? && !y.BoxOpen? && !y.Time?
    ensures CountBoxes([x] + body + [y]) == CountBoxes(body)
    ensures CountTimes([x] + body + [y]) == CountTimes(body)
  {
    Single(x);
    Single(y);
    CountAppend([x], body);
    CountAppend([x] + body, [y]);
  }

  lemma Single(f: Fragment)
    ensures CountBoxes([f]) == (if f.BoxOpen? then 1 else 0)
    ensures CountTimes([f]) == (if f.Time? then 1 else 0)
  {
    assert [f][..0] == [];
  }
}
