/** The conversation panel of the page: the messages and loading elements shown, the
    counter that gives system messages their index, the rollback and feedback buttons
    rebuilt after every system message, the truncation a rollback performs and the
    feedback votes in flight. */
module MainConversation {
  import opened Wrappers
  import opened Text

  /** The `type` argument of `addMessage`: `user`, `system` or `system error`; or a
      loading element, which `showLoadingMessage` builds without a `.message-content`
      child (`hasContent` false) and `addLoadingMessageWithoutPolling` builds with one. */
  datatype MsgType = User | System | SystemError | Loading(hasContent: bool)

  /** The state of a generated message's two feedback buttons; `buttons` names the pair,
      which every rebuild replaces by a new one. */
  datatype Feedback = Feedback(up: bool, down: bool, disabled: bool, buttons: nat)

  /** One element of the panel: its identity, type, text, `data-message-index`,
      `data-is-generated`, whether it has a rollback button, its feedback buttons if it
      has them, and the rollback click whose request keeps that rollback button in its
      `loading` state, if one does. */
  datatype Message = Message(
    id: nat, msgType: MsgType, text: string, index: Option<int>, generated: bool,
    rollback: bool, feedback: Option<Feedback>, rollbackLoading: Option<nat>)

  /** The element `addMessage` appends, before its buttons are built. Only a message of
      type exactly `system` takes the counter's value. */
  function NewMessage(text: string, t: MsgType, generated: bool, counter: int, id: nat): (m: Message)
    ensures m.index.Some? <==> t == System
    ensures m.index.Some? ==> m.index.value == counter
    ensures m.generated ==> t == System
    ensures !m.rollback && m.feedback.None? && m.rollbackLoading.None?
    ensures m.id == id && m.msgType == t && m.text == text
  {
    Message(id, t, text, if t == System then Some(counter) else None, t == System && generated, false, None, None)
  }

  /** A loading element: the three dots, with no index and no buttons. */
  function LoadingElement(hasContent: bool, id: nat): Message
  {
    Message(id, Loading(hasContent), "", None, false, false, None, None)
  }

  /** The indices of the indexed messages, in order. */
  function Indices(msgs: seq<Message>): (r: seq<int>)
    ensures |r| <= |msgs|
  {
    if msgs == [] then []
    else
      var last := msgs[|msgs| - 1];
      Indices(msgs[..|msgs| - 1]) + (if last.index.Some? then [last.index.value] else [])
  }

  predicate Increasing(s: seq<int>)
  {
    forall i, j :: 0 <= i < j < |s| ==> s[i] < s[j]
  }

  function Range(lo: int, hi: int): (r: seq<int>)
    requires lo <= hi
    ensures |r| == hi - lo && forall i :: 0 <= i < |r| ==> r[i] == lo + i
  {
    seq(hi - lo, i requires 0 <= i < hi - lo => lo + i)
  }

  /** Whether the element has the `system-message` class the rollback search and the
      button rebuilding look for. Its class name is `message <type>-message`, so a
      `system error` message has the classes `system` and `error-message` but not this
      one; both kinds of loading element have it. */
  predicate IsSystem(m: Message)
  {
    m.msgType == System || m.msgType.Loading?
  }

  /** The loading element the rebuilding loop cannot get past: it has no
      `.message-content`, so `querySelector` is called on null and throws. */
  predicate Bare(m: Message)
  {
    m.msgType == Loading(false)
  }

  predicate NoneOfType(msgs: seq<Message>, t: MsgType)
  {
    forall i :: 0 <= i < |msgs| ==> msgs[i].msgType != t
  }

  /** The position of the first element of type `t`, or the length when there is none. */
  function FirstOfType(msgs: seq<Message>, t: MsgType): (r: nat)
    ensures r <= |msgs|
    ensures forall j :: 0 <= j < r ==> msgs[j].msgType != t
    ensures r < |msgs| ==> msgs[r].msgType == t
  {
    if msgs == [] then 0
    else if msgs[0].msgType == t then 0
    else 1 + FirstOfType(msgs[1..], t)
  }

  /** Where the rebuilding loop throws, or the length when it does not. */
  function FirstBare(msgs: seq<Message>): nat
  {
    FirstOfType(msgs, Loading(false))
  }

  /** Where the last element with the `system-message` class is. */
  function LastSystemPos(msgs: seq<Message>): (r: Option<nat>)
    ensures r.Some? ==> r.value < |msgs| && IsSystem(msgs[r.value])
    ensures r.Some? ==> forall j :: r.value < j < |msgs| ==> !IsSystem(msgs[j])
    ensures r.None? ==> forall j :: 0 <= j < |msgs| ==> !IsSystem(msgs[j])
  {
    if msgs == [] then None
    else if IsSystem(msgs[|msgs| - 1]) then Some(|msgs| - 1)
    else LastSystemPos(msgs[..|msgs| - 1])
  }

  /** One element after its buttons are rebuilt, `buttons` naming the new pair: a
      rollback button unless it is the last system message or has no positive index, and
      feedback buttons, with the active states they had, when it is a generated answer.
      The new rollback button is not loading. Elements without the `system-message` class
      are left alone. */
  function RefreshOne(m: Message, isLast: bool, buttons: nat): (r: Message)
    ensures r.id == m.id && r.msgType == m.msgType && r.text == m.text
    ensures r.index == m.index && r.generated == m.generated
    ensures IsSystem(m) ==> r.rollbackLoading.None?
  {
    if !IsSystem(m) then m
    else
      var up := m.feedback.Some? && m.feedback.value.up;
      var down := m.feedback.Some? && m.feedback.value.down;
      m.(rollback := !isLast && m.index.Some? && m.index.value > 0,
         feedback := if m.generated then Some(Feedback(up, down, false, buttons)) else None,
         rollbackLoading := None)
  }

  /** The panel once `addMessage` has run its rebuilding loop, the pair of the element at
      position `i` being named `base + i`. The loop throws at the first bare loading
      element, so it and everything after it keep their old buttons. */
  function Refreshed(msgs: seq<Message>, base: nat): (r: seq<Message>)
    ensures |r| == |msgs|
    ensures forall i :: 0 <= i < |msgs| ==>
      r[i].id == msgs[i].id && r[i].msgType == msgs[i].msgType && r[i].text == msgs[i].text &&
      r[i].index == msgs[i].index && r[i].generated == msgs[i].generated
  {
    RebuiltUpTo(msgs, LastSystemPos(msgs), FirstBare(msgs), base)
  }

  /** The elements before `stop` rebuilt, the last system message being at `last`. */
  function RebuiltUpTo(msgs: seq<Message>, last: Option<nat>, stop: nat, base: nat): (r: seq<Message>)
    ensures |r| == |msgs|
    ensures forall i :: 0 <= i < |msgs| ==>
      r[i] == if i < stop then RefreshOne(msgs[i], last == Some(i), base + i) else msgs[i]
  {
    seq(|msgs|, i requires 0 <= i < |msgs| =>
      if i < stop then RefreshOne(msgs[i], last == Some(i), base + i) else msgs[i])
  }

  /** The first message of type `system` whose index is `target`. */
  function FirstWithIndex(msgs: seq<Message>, target: int): (r: Option<nat>)
    ensures r.Some? ==> r.value < |msgs| && IsSystem(msgs[r.value]) && msgs[r.value].index == Some(target)
    ensures r.Some? ==> forall j :: 0 <= j < r.value ==> !(IsSystem(msgs[j]) && msgs[j].index == Some(target))
    ensures r.None? ==> forall j :: 0 <= j < |msgs| ==> !(IsSystem(msgs[j]) && msgs[j].index == Some(target))
  {
    if msgs == [] then None
    else if IsSystem(msgs[0]) && msgs[0].index == Some(target) then Some(0)
    else
      var r := FirstWithIndex(msgs[1..], target);
      if r.None? then None else Some(r.value + 1)
  }

  /** The conversation after a successful rollback to `target`. */
  function Truncated(msgs: seq<Message>, target: int): seq<Message>
  {
    var p := FirstWithIndex(msgs, target);
    if p.None? then msgs else msgs[..p.value + 1]
  }

  /** A rollback click waiting for its answer: the element clicked, the index it rolls
      back to and the name of the click. */
  datatype PendingRollback = PendingRollback(message: nat, target: int, click: nat)

  /** The panel once the answer to the rollback click `r` has taken the `loading` state
      off the button it was made on. A rebuild since the click has replaced that button;
      the one shown instead, even if clicked again since, is left as it is. */
  function Released(msgs: seq<Message>, r: PendingRollback): (s: seq<Message>)
    ensures |s| == |msgs|
    ensures forall i :: 0 <= i < |msgs| ==>
      s[i] == if msgs[i].id == r.message && msgs[i].rollbackLoading == Some(r.click)
              then msgs[i].(rollbackLoading := None) else msgs[i]
  {
    seq(|msgs|, i requires 0 <= i < |msgs| =>
      if msgs[i].id == r.message && msgs[i].rollbackLoading == Some(r.click)
      then msgs[i].(rollbackLoading := None) else msgs[i])
  }

  /** The panel without its element at `p`. */
  function RemoveAt(msgs: seq<Message>, p: nat): (r: seq<Message>)
    requires p < |msgs|
    ensures |r| == |msgs| - 1
    ensures forall i :: 0 <= i < p ==> r[i] == msgs[i]
    ensures forall i :: p <= i < |r| ==> r[i] == msgs[i + 1]
  {
    msgs[..p] + msgs[p + 1..]
  }

  /** The panel once the loading element of kind `hasContent` is removed, if it is there. */
  function WithoutLoading(msgs: seq<Message>, hasContent: bool): seq<Message>
  {
    var p := FirstOfType(msgs, Loading(hasContent));
    if p < |msgs| then RemoveAt(msgs, p) else msgs
  }

  /** The position of the element named `id`. */
  function PositionOf(msgs: seq<Message>, id: nat): (r: Option<nat>)
    ensures r.Some? ==> r.value < |msgs| && msgs[r.value].id == id
    ensures r.None? ==> forall j :: 0 <= j < |msgs| ==> msgs[j].id != id
  {
    if msgs == [] then None
    else if msgs[0].id == id then Some(0)
    else
      var r := PositionOf(msgs[1..], id);
      if r.None? then None else Some(r.value + 1)
  }

  datatype FeedbackKind = ThumbsUp | ThumbsDown

  function FeedbackName(kind: FeedbackKind): string
  {
    match kind
    case ThumbsUp => "thumbs_up"
    case ThumbsDown => "thumbs_down"
  }

  function Other(kind: FeedbackKind): FeedbackKind
  {
    if kind == ThumbsUp then ThumbsDown else ThumbsUp
  }

  function IsActive(f: Feedback, kind: FeedbackKind): bool
  {
    if kind == ThumbsUp then f.up else f.down
  }

  /** Whether a click on the `kind` button sends feedback: not when that button is already
      active or the buttons are disabled by a request in flight. */
  predicate Clickable(f: Feedback, kind: FeedbackKind)
  {
    !IsActive(f, kind) && !f.disabled
  }

  /** A feedback request in flight: the message it is for, the pair of buttons that was
      clicked and which of the two. */
  datatype Vote = Vote(message: nat, buttons: nat, kind: FeedbackKind)

  /** The buttons once the request has settled, when the clicked pair is still the one
      shown: on success the clicked one is active and the other not; either way both are
      enabled again. */
  function Settled(f: Feedback, kind: FeedbackKind, ok: bool): (g: Feedback)
    ensures !g.disabled && g.buttons == f.buttons
    ensures ok ==> IsActive(g, kind) && !IsActive(g, Other(kind))
    ensures !ok ==> g.up == f.up && g.down == f.down
  {
    if !ok then f.(disabled := false)
    else if kind == ThumbsUp then f.(up := true, down := false, disabled := false)
    else f.(up := false, down := true, disabled := false)
  }

  /** The shown buttons `f` when the request settles after the clicked pair was replaced
      by a rebuild: on success `active` goes onto the detached button and comes off the
      other thumb of the shown pair; then `closest` on the detached button gives null,
      the `finally` clause throws and nothing is enabled. */
  function Detached(f: Feedback, kind: FeedbackKind, ok: bool): (g: Feedback)
    ensures g.disabled == f.disabled && g.buttons == f.buttons && IsActive(g, kind) == IsActive(f, kind)
    ensures ok ==> !IsActive(g, Other(kind))
    ensures !ok ==> g == f
  {
    if !ok then f
    else if kind == ThumbsUp then f.(down := false)
    else f.(up := false)
  }

  /** The panel once the request `v` settles. The message may have been removed by a
      rollback meanwhile; then nothing shown changes. */
  function Voted(msgs: seq<Message>, v: Vote, ok: bool): (r: seq<Message>)
    ensures |r| == |msgs|
    ensures forall i :: 0 <= i < |msgs| && msgs[i].id != v.message ==> r[i] == msgs[i]
    ensures forall i :: 0 <= i < |msgs| ==> r[i].(feedback := msgs[i].feedback) == msgs[i]
  {
    var p := PositionOf(msgs, v.message);
    if p.None? || msgs[p.value].feedback.None? then msgs
    else
      var f := msgs[p.value].feedback.value;
      var g := if f.buttons == v.buttons then Settled(f, v.kind, ok) else Detached(f, v.kind, ok);
      msgs[p.value := msgs[p.value].(feedback := Some(g))]
  }

  /** The settling as it is evidently meant: the message's buttons shown now are settled,
      whether or not a rebuild replaced the pair that was clicked. */
  function VotedCorrected(msgs: seq<Message>, v: Vote, ok: bool): (r: seq<Message>)
    ensures |r| == |msgs|
    ensures forall i :: 0 <= i < |msgs| && msgs[i].id != v.message ==> r[i] == msgs[i]
    ensures forall i :: 0 <= i < |msgs| ==> r[i].(feedback := msgs[i].feedback) == msgs[i]
  {
    var p := PositionOf(msgs, v.message);
    if p.None? || msgs[p.value].feedback.None? then msgs
    else msgs[p.value := msgs[p.value].(feedback := Some(Settled(msgs[p.value].feedback.value, v.kind, ok)))]
  }

  /** One element is well formed: an index exactly on a message of type `system`, buttons
      only on elements with the `system-message` class (a rollback button only on one with
      a positive index), feedback buttons only on generated
      answers and never both active, and every name below `created`. */
  predicate WellFormed(m: Message, created: nat)
  {
    (m.index.Some? <==> m.msgType == System) &&
    (m.rollback ==> IsSystem(m) && m.index.Some? && m.index.value > 0) &&
    (m.generated ==> m.msgType == System) &&
    m.id < created &&
    (m.feedback.Some? ==>
      m.generated && !(m.feedback.value.up && m.feedback.value.down) && m.feedback.value.buttons < created)
  }

  predicate AllWellFormed(msgs: seq<Message>, created: nat)
  {
    forall i :: 0 <= i < |msgs| ==> WellFormed(msgs[i], created)
  }

  /** No two elements share a name. */
  predicate DistinctIds(msgs: seq<Message>)
  {
    forall i, j :: 0 <= i < j < |msgs| ==> msgs[i].id != msgs[j].id
  }

  /** There is at most one loading element of each kind. */
  predicate OneLoadingEach(msgs: seq<Message>)
  {
    forall i, j :: 0 <= i < j < |msgs| && msgs[i].msgType.Loading? ==> msgs[j].msgType != msgs[i].msgType
  }

  /** The indices increase and stay below the counter. */
  predicate IndicesBelow(s: seq<int>, counter: int)
  {
    0 <= counter && Increasing(s) && forall k :: 0 <= k < |s| ==> s[k] < counter
  }

  /** Indices increase along the panel and stay below the counter, every element is well
      formed, no two elements share a name, and there is at most one loading element of
      each kind. */
  ghost predicate ValidMessages(msgs: seq<Message>, counter: int, created: nat)
  {
    IndicesBelow(Indices(msgs), counter) && AllWellFormed(msgs, created) &&
    DistinctIds(msgs) && OneLoadingEach(msgs)
  }

  class Conversation {
    var messages: seq<Message>
    /** The `messageIndex` counter. */
    var messageIndex: int
    /** How many elements and pairs of feedback buttons have been created; each is named
        by the count at its creation. */
    var created: nat
    /** The feedback requests in flight. */
    var votes: seq<Vote>
    /** The rollback requests in flight, and how many rollback clicks have been sent;
        each is named by the count at its sending. */
    var rollbacks: seq<PendingRollback>
    var clicks: nat

    ghost predicate Valid()
      reads this
    {
      ValidMessages(messages, messageIndex, created)
    }

    constructor ()
      ensures Valid() && messages == [] && messageIndex == 0 && votes == [] && rollbacks == []
    {
      messages := [];
      messageIndex := 0;
      created := 0;
      votes := [];
      rollbacks := [];
      clicks := 0;
    }

    /** The synchronous part of `addMessage`: the element is appended and, for a system
        message, the counter advances. */
    method AddMessage(text: string, t: MsgType, generated: bool)
      requires Valid() && !t.Loading?
      modifies this
      ensures Valid()
      ensures messages == old(messages) + [NewMessage(text, t, generated, old(messageIndex), old(created))]
      ensures messageIndex == old(messageIndex) + (if t == System then 1 else 0)
      ensures created == old(created) + 1 && votes == old(votes)
      ensures rollbacks == old(rollbacks) && clicks == old(clicks)
    {
      var m := NewMessage(text, t, generated, messageIndex, created);
      AppendValid(messages, messageIndex, created, m);
      messages := messages + [m];
      created := created + 1;
      if t == System {
        messageIndex := messageIndex + 1;
      }
    }

    /** `showLoadingMessage` (`hasContent` false) or `addLoadingMessageWithoutPolling`:
        the loading element is appended; the counter does not move. */
    method ShowLoading(hasContent: bool)
      requires Valid() && NoneOfType(messages, Loading(hasContent))
      modifies this
      ensures Valid()
      ensures messages == old(messages) + [LoadingElement(hasContent, old(created))]
      ensures messageIndex == old(messageIndex) && created == old(created) + 1 && votes == old(votes)
      ensures rollbacks == old(rollbacks) && clicks == old(clicks)
    {
      var m := LoadingElement(hasContent, created);
      AppendValid(messages, messageIndex, created, m);
      messages := messages + [m];
      created := created + 1;
    }

    /** `loadingMessage.remove()`: the loading element of that kind goes, if it is still
        in the panel. */
    method RemoveLoading(hasContent: bool)
      requires Valid()
      modifies this
      ensures Valid()
      ensures messages == WithoutLoading(old(messages), hasContent)
      ensures NoneOfType(messages, Loading(hasContent))
      ensures messageIndex == old(messageIndex) && created == old(created) && votes == old(votes)
      ensures rollbacks == old(rollbacks) && clicks == old(clicks)
    {
      var p := FirstOfType(messages, Loading(hasContent));
      if p < |messages| {
        RemoveValid(messages, messageIndex, created, p);
        messages := RemoveAt(messages, p);
      }
    }

    /** The end of `addMessage` for a system message, once its text is typed out: the
        last system message is found, then every system message's buttons are rebuilt
        until the loop throws at a bare loading element. */
    method RefreshButtons() returns (threw: bool)
      requires Valid()
      modifies this
      ensures Valid()
      ensures messages == Refreshed(old(messages), old(created))
      ensures threw <==> FirstBare(old(messages)) < |old(messages)|
      ensures created == old(created) + |old(messages)|
      ensures messageIndex == old(messageIndex) && votes == old(votes)
      ensures rollbacks == old(rollbacks) && clicks == old(clicks)
    {
      var msgs, base := messages, created;
      var last := FindLastSystem(msgs);
      var rebuilt;
      rebuilt, threw := Rebuild(msgs, last, base);
      RefreshedValid(msgs, messageIndex, base, rebuilt);
      Install(rebuilt, base + |msgs|);
    }

    /** The rebuilt panel put in place, with the names its buttons used counted. */
    method Install(rebuilt: seq<Message>, created': nat)
      requires ValidMessages(rebuilt, messageIndex, created')
      modifies this
      ensures Valid() && messages == rebuilt && created == created'
      ensures messageIndex == old(messageIndex) && votes == old(votes)
      ensures rollbacks == old(rollbacks) && clicks == old(clicks)
    {
      messages, created := rebuilt, created';
    }

    /** The search of `handleRollback` for the target system message. */
    method FindTarget(target: int) returns (p: Option<nat>)
      ensures p == FirstWithIndex(messages, target)
    {
      for k := 0 to |messages|
        invariant FirstWithIndex(messages, target) == FirstWithIndexFrom(messages, target, k)
      {
        if IsSystem(messages[k]) && messages[k].index == Some(target) {
          FirstWithIndexFromHit(messages, target, k);
          return Some(k);
        }
        FirstWithIndexFromMiss(messages, target, k);
      }
      FirstWithIndexFromEnd(messages, target);
      return None;
    }

    /** The removals of a successful `handleRollback`: every element after the target. */
    method TruncateAfter(target: int)
      requires Valid()
      modifies this
      ensures Valid()
      ensures messages == Truncated(old(messages), target)
      ensures messageIndex == old(messageIndex) && created == old(created) && votes == old(votes)
      ensures rollbacks == old(rollbacks) && clicks == old(clicks)
    {
      var p := FindTarget(target);
      if p.Some? {
        PrefixValid(messages, messageIndex, created, p.value + 1);
        messages := messages[..p.value + 1];
      }
    }

    /** A click on the rollback button of the element at `pos`: ignored while that button
        is loading; otherwise the button is put in its `loading` state and the click is
        remembered, with the element's index as the one to roll back to. */
    method BeginRollback(pos: nat) returns (sent: bool)
      requires Valid() && pos < |messages| && messages[pos].rollback
      modifies this
      ensures Valid()
      ensures sent <==> old(messages[pos].rollbackLoading).None?
      ensures sent ==>
        messages == old(messages)[pos := old(messages[pos]).(rollbackLoading := Some(old(clicks)))] &&
        rollbacks == old(rollbacks) + [PendingRollback(old(messages[pos].id), old(messages[pos].index.value), old(clicks))] &&
        clicks == old(clicks) + 1
      ensures !sent ==> messages == old(messages) && rollbacks == old(rollbacks) && clicks == old(clicks)
      ensures messageIndex == old(messageIndex) && created == old(created) && votes == old(votes)
    {
      var m := messages[pos];
      if m.rollbackLoading.Some? {
        return false;
      }
      rollbacks := rollbacks + [PendingRollback(m.id, m.index.value, clicks)];
      UpdateValid(messages, messageIndex, created, pos, m.(rollbackLoading := Some(clicks)));
      messages := messages[pos := m.(rollbackLoading := Some(clicks))];
      clicks := clicks + 1;
      return true;
    }

    /** The answer to the rollback click `rollbacks[k]`. On success every element after
        the target goes, in the panel as it is when the answer arrives; whatever the
        answer, the clicked button leaves its `loading` state. */
    method FinishRollback(k: nat, ok: bool)
      requires Valid() && k < |rollbacks|
      modifies this
      ensures Valid()
      ensures messages ==
        Released(if ok then Truncated(old(messages), old(rollbacks[k].target)) else old(messages), old(rollbacks[k]))
      ensures rollbacks == old(rollbacks[..k] + rollbacks[k + 1..])
      ensures messageIndex == old(messageIndex) && created == old(created) && votes == old(votes) && clicks == old(clicks)
    {
      var r := rollbacks[k];
      rollbacks := rollbacks[..k] + rollbacks[k + 1..];
      if ok {
        TruncateAfter(r.target);
      }
      ReleasedValid(messages, messageIndex, created, r);
      messages := Released(messages, r);
    }

    /** The end of `handleDesignSelection`'s reset: counter back to 0, panel emptied. */
    method Clear()
      requires Valid()
      modifies this
      ensures Valid() && messages == [] && messageIndex == 0
      ensures created == old(created) && votes == old(votes)
      ensures rollbacks == old(rollbacks) && clicks == old(clicks)
    {
      messages := [];
      messageIndex := 0;
    }

    /** A click on a feedback button of the message at `pos`; `sent` says whether
        `handleFeedback` went on to send the request (with both buttons disabled). */
    method BeginFeedback(pos: nat, kind: FeedbackKind) returns (sent: bool)
      requires Valid() && pos < |messages| && messages[pos].feedback.Some?
      modifies this
      ensures Valid()
      ensures sent <==> Clickable(old(messages[pos].feedback.value), kind)
      ensures sent ==> messages == old(messages)[pos := old(messages[pos]).(feedback := Some(old(messages[pos].feedback.value).(disabled := true)))]
      ensures sent ==> votes == old(votes) + [Vote(old(messages[pos].id), old(messages[pos].feedback.value.buttons), kind)]
      ensures !sent ==> messages == old(messages) && votes == old(votes)
      ensures messageIndex == old(messageIndex) && created == old(created)
      ensures rollbacks == old(rollbacks) && clicks == old(clicks)
    {
      var f := messages[pos].feedback.value;
      if !Clickable(f, kind) {
        return false;
      }
      votes := votes + [Vote(messages[pos].id, f.buttons, kind)];
      UpdateValid(messages, messageIndex, created, pos, messages[pos].(feedback := Some(f.(disabled := true))));
      messages := messages[pos := messages[pos].(feedback := Some(f.(disabled := true)))];
      return true;
    }

    /** The settling of the feedback request `votes[k]`. */
    method FinishFeedback(k: nat, ok: bool)
      requires Valid() && k < |votes|
      modifies this
      ensures Valid()
      ensures messages == Voted(old(messages), old(votes[k]), ok)
      ensures votes == old(votes[..k] + votes[k + 1..])
      ensures messageIndex == old(messageIndex) && created == old(created)
      ensures rollbacks == old(rollbacks) && clicks == old(clicks)
    {
      var v := votes[k];
      votes := votes[..k] + votes[k + 1..];
      var p := PositionOf(messages, v.message);
      if p.Some? && messages[p.value].feedback.Some? {
        var f := messages[p.value].feedback.value;
        var g := if f.buttons == v.buttons then Settled(f, v.kind, ok) else Detached(f, v.kind, ok);
        UpdateValid(messages, messageIndex, created, p.value, messages[p.value].(feedback := Some(g)));
        messages := messages[p.value := messages[p.value].(feedback := Some(g))];
      }
    }

    /** The settling as it is evidently meant: the buttons shown now are settled. */
    method FinishFeedbackCorrected(k: nat, ok: bool)
      requires Valid() && k < |votes|
      modifies this
      ensures Valid()
      ensures messages == VotedCorrected(old(messages), old(votes[k]), ok)
      ensures votes == old(votes[..k] + votes[k + 1..])
      ensures messageIndex == old(messageIndex) && created == old(created)
      ensures rollbacks == old(rollbacks) && clicks == old(clicks)
    {
      var v := votes[k];
      votes := votes[..k] + votes[k + 1..];
      var p := PositionOf(messages, v.message);
      if p.Some? && messages[p.value].feedback.Some? {
        var g := Settled(messages[p.value].feedback.value, v.kind, ok);
        UpdateValid(messages, messageIndex, created, p.value, messages[p.value].(feedback := Some(g)));
        messages := messages[p.value := messages[p.value].(feedback := Some(g))];
      }
    }
  }

  /** The search of `addMessage` for the last system message. */
  method FindLastSystem(msgs: seq<Message>) returns (last: Option<nat>)
    ensures last == LastSystemPos(msgs)
  {
    last := None;
    for k := 0 to |msgs|
      invariant last == LastSystemPos(msgs[..k])
    {
      assert msgs[..k + 1][..k] == msgs[..k];
      if IsSystem(msgs[k]) {
        last := Some(k);
      }
    }
    assert msgs[..|msgs|] == msgs;
  }

  /** The rebuilding loop of `addMessage` over every element, given where the last
      system message is; `threw` says whether it stopped at a bare loading element. */
  method Rebuild(msgs: seq<Message>, last: Option<nat>, base: nat) returns (rebuilt: seq<Message>, threw: bool)
    requires last == LastSystemPos(msgs)
    ensures rebuilt == Refreshed(msgs, base)
    ensures threw <==> FirstBare(msgs) < |msgs|
  {
    rebuilt := msgs;
    RebuiltNothing(msgs, last, base);
    for k := 0 to |msgs|
      invariant forall i :: 0 <= i < k ==> !Bare(msgs[i])
      invariant rebuilt == RebuiltUpTo(msgs, last, k, base)
    {
      if Bare(msgs[k]) {
        assert FirstBare(msgs) == k;
        return rebuilt, true;
      }
      RebuiltStep(msgs, last, k, base);
      rebuilt := rebuilt[k := RefreshOne(msgs[k], last == Some(k), base + k)];
    }
    assert FirstBare(msgs) == |msgs|;
    threw := false;
  }

  // ---------------------------------------------------------------- helpers

  /** `FirstWithIndex` of the messages from position `k` on, as a position of the whole list. */
  function FirstWithIndexFrom(msgs: seq<Message>, target: int, k: nat): Option<nat>
    requires k <= |msgs|
  {
    var r := FirstWithIndex(msgs[k..], target);
    if r.None? then None else Some(r.value + k)
  }

  lemma FirstWithIndexFromHit(msgs: seq<Message>, target: int, k: nat)
    requires k < |msgs| && IsSystem(msgs[k]) && msgs[k].index == Some(target)
    ensures FirstWithIndexFrom(msgs, target, k) == Some(k)
  {
    assert msgs[k..][0] == msgs[k];
  }

  lemma FirstWithIndexFromMiss(msgs: seq<Message>, target: int, k: nat)
    requires k < |msgs| && !(IsSystem(msgs[k]) && msgs[k].index == Some(target))
    ensures FirstWithIndexFrom(msgs, target, k) == FirstWithIndexFrom(msgs, target, k + 1)
  {
    assert msgs[k..][0] == msgs[k];
    assert msgs[k..][1..] == msgs[k + 1..];
  }

  lemma FirstWithIndexFromEnd(msgs: seq<Message>, target: int)
    ensures FirstWithIndexFrom(msgs, target, |msgs|) == None
  {
    assert msgs[|msgs|..] == [];
  }

  /** Appending a message indexed by the counter keeps the indices increasing and below
      the advanced counter. */
  lemma AppendKeepsIndices(msgs: seq<Message>, m: Message, counter: int)
    requires IndicesBelow(Indices(msgs), counter)
    requires m.index.Some? ==> m.index.value == counter
    ensures IndicesBelow(Indices(msgs + [m]), counter + if m.index.Some? then 1 else 0)
  {
    IndicesSnoc(msgs, m);
  }

  lemma AppendValid(msgs: seq<Message>, counter: int, created: nat, m: Message)
    requires ValidMessages(msgs, counter, created)
    requires WellFormed(m, created + 1) && m.id == created && (m.index.Some? ==> m.index.value == counter)
    requires m.msgType.Loading? ==> NoneOfType(msgs, m.msgType)
    ensures ValidMessages(msgs + [m], counter + (if m.index.Some? then 1 else 0), created + 1)
  {
    AppendKeepsIndices(msgs, m, counter);
    AppendWellFormed(msgs, created, m);
    AppendDistinct(msgs, created, m);
    AppendOneLoading(msgs, m);
  }

  lemma AppendWellFormed(msgs: seq<Message>, created: nat, m: Message)
    requires AllWellFormed(msgs, created) && WellFormed(m, created + 1)
    ensures AllWellFormed(msgs + [m], created + 1)
  {
    var next := msgs + [m];
    forall i | 0 <= i < |next| ensures WellFormed(next[i], created + 1) {
      if i < |msgs| {
        assert next[i] == msgs[i];
      }
    }
  }

  lemma AppendDistinct(msgs: seq<Message>, created: nat, m: Message)
    requires AllWellFormed(msgs, created) && DistinctIds(msgs) && m.id == created
    ensures DistinctIds(msgs + [m])
  {
    var next := msgs + [m];
    forall i, j | 0 <= i < j < |next| ensures next[i].id != next[j].id {
      assert next[i] == msgs[i];
      assert WellFormed(msgs[i], created);
      if j < |msgs| {
        assert next[j] == msgs[j];
      }
    }
  }

  lemma AppendOneLoading(msgs: seq<Message>, m: Message)
    requires OneLoadingEach(msgs) && (m.msgType.Loading? ==> NoneOfType(msgs, m.msgType))
    ensures OneLoadingEach(msgs + [m])
  {
    var next := msgs + [m];
    forall i, j | 0 <= i < j < |next| && next[i].msgType.Loading? ensures next[j].msgType != next[i].msgType {
      assert next[i] == msgs[i];
      if j < |msgs| {
        assert next[j] == msgs[j];
      }
    }
  }

  lemma PrefixValid(msgs: seq<Message>, counter: int, created: nat, n: nat)
    requires ValidMessages(msgs, counter, created) && n <= |msgs|
    ensures ValidMessages(msgs[..n], counter, created)
  {
    IndicesPrefix(msgs, n);
    var s, r := Indices(msgs), Indices(msgs[..n]);
    forall i, j | 0 <= i < j < |r| ensures r[i] < r[j] {
      assert r[i] == s[i] && r[j] == s[j];
    }
    forall k | 0 <= k < |r| ensures r[k] < counter {
      assert r[k] == s[k];
    }
  }

  lemma RemoveValid(msgs: seq<Message>, counter: int, created: nat, p: nat)
    requires ValidMessages(msgs, counter, created) && p < |msgs| && msgs[p].index.None?
    ensures ValidMessages(RemoveAt(msgs, p), counter, created)
    ensures msgs[p].msgType.Loading? && FirstOfType(msgs, msgs[p].msgType) == p ==>
      NoneOfType(RemoveAt(msgs, p), msgs[p].msgType)
  {
    IndicesRemove(msgs, p);
    RemoveWellFormed(msgs, created, p);
    RemoveDistinct(msgs, p);
    RemoveOneLoading(msgs, p);
    if msgs[p].msgType.Loading? && FirstOfType(msgs, msgs[p].msgType) == p {
      RemoveLeavesNone(msgs, p);
    }
  }

  lemma RemoveWellFormed(msgs: seq<Message>, created: nat, p: nat)
    requires AllWellFormed(msgs, created) && p < |msgs|
    ensures AllWellFormed(RemoveAt(msgs, p), created)
  {
    var r := RemoveAt(msgs, p);
    forall i | 0 <= i < |r| ensures WellFormed(r[i], created) {
      assert r[i] == msgs[if i < p then i else i + 1];
    }
  }

  lemma RemoveDistinct(msgs: seq<Message>, p: nat)
    requires DistinctIds(msgs) && p < |msgs|
    ensures DistinctIds(RemoveAt(msgs, p))
  {
    var r := RemoveAt(msgs, p);
    forall i, j | 0 <= i < j < |r| ensures r[i].id != r[j].id {
      var i', j' := if i < p then i else i + 1, if j < p then j else j + 1;
      assert r[i] == msgs[i'] && r[j] == msgs[j'];
    }
  }

  lemma RemoveOneLoading(msgs: seq<Message>, p: nat)
    requires OneLoadingEach(msgs) && p < |msgs|
    ensures OneLoadingEach(RemoveAt(msgs, p))
  {
    var r := RemoveAt(msgs, p);
    forall i, j | 0 <= i < j < |r| && r[i].msgType.Loading? ensures r[j].msgType != r[i].msgType {
      var i', j' := if i < p then i else i + 1, if j < p then j else j + 1;
      assert r[i] == msgs[i'] && r[j] == msgs[j'];
    }
  }

  /** Removing the first loading element of a kind leaves none of that kind. */
  lemma RemoveLeavesNone(msgs: seq<Message>, p: nat)
    requires OneLoadingEach(msgs) && p < |msgs| && msgs[p].msgType.Loading?
    requires FirstOfType(msgs, msgs[p].msgType) == p
    ensures NoneOfType(RemoveAt(msgs, p), msgs[p].msgType)
  {
    var r := RemoveAt(msgs, p);
    forall i | 0 <= i < |r| ensures r[i].msgType != msgs[p].msgType {
      if i >= p {
        assert r[i] == msgs[i + 1];
      }
    }
  }

  lemma RefreshedValid(msgs: seq<Message>, counter: int, created: nat, r: seq<Message>)
    requires ValidMessages(msgs, counter, created) && r == Refreshed(msgs, created)
    ensures ValidMessages(r, counter, created + |msgs|)
  {
    RefreshedKeepsIndices(msgs, created);
    forall i | 0 <= i < |r| ensures WellFormed(r[i], created + |msgs|) {
      RefreshedAt(msgs, created, i);
      RefreshOneValid(msgs[i], LastSystemPos(msgs) == Some(i), created + i, created, created + |msgs|);
    }
    forall i, j | 0 <= i < j < |r| ensures r[i].id != r[j].id {
      assert r[i].id == msgs[i].id && r[j].id == msgs[j].id;
    }
    forall i, j | 0 <= i < j < |r| && r[i].msgType.Loading? ensures r[j].msgType != r[i].msgType {
      assert r[i].msgType == msgs[i].msgType && r[j].msgType == msgs[j].msgType;
    }
  }

  /** Appending an element of another type, keeping a prefix, removing an element,
      rebuilding the buttons and settling a vote each keep a type absent from the panel. */
  lemma AppendKeepsNone(msgs: seq<Message>, m: Message, t: MsgType)
    requires NoneOfType(msgs, t) && m.msgType != t
    ensures NoneOfType(msgs + [m], t)
  {
    var r := msgs + [m];
    forall i | 0 <= i < |r| ensures r[i].msgType != t {
      if i < |msgs| {
        assert r[i] == msgs[i];
      }
    }
  }

  lemma PrefixKeepsNone(msgs: seq<Message>, n: nat, t: MsgType)
    requires NoneOfType(msgs, t) && n <= |msgs|
    ensures NoneOfType(msgs[..n], t)
  {
    var r := msgs[..n];
    forall i | 0 <= i < |r| ensures r[i].msgType != t {
      assert r[i] == msgs[i];
    }
  }

  lemma TruncatedKeepsNone(msgs: seq<Message>, target: int, t: MsgType)
    requires NoneOfType(msgs, t)
    ensures NoneOfType(Truncated(msgs, target), t)
  {
    var p := FirstWithIndex(msgs, target);
    if p.Some? {
      PrefixKeepsNone(msgs, p.value + 1, t);
    }
  }

  lemma ReleasedKeepsNone(msgs: seq<Message>, r: PendingRollback, t: MsgType)
    requires NoneOfType(msgs, t)
    ensures NoneOfType(Released(msgs, r), t)
  {
  }

  lemma WithoutLoadingKeepsNone(msgs: seq<Message>, hasContent: bool, t: MsgType)
    requires NoneOfType(msgs, t)
    ensures NoneOfType(WithoutLoading(msgs, hasContent), t)
  {
    var p := FirstOfType(msgs, Loading(hasContent));
    if p < |msgs| {
      var r := RemoveAt(msgs, p);
      forall i | 0 <= i < |r| ensures r[i].msgType != t {
        assert r[i] == msgs[if i < p then i else i + 1];
      }
    }
  }

  lemma RefreshedKeepsNone(msgs: seq<Message>, base: nat, t: MsgType)
    requires NoneOfType(msgs, t)
    ensures NoneOfType(Refreshed(msgs, base), t)
  {
    var r := Refreshed(msgs, base);
    forall i | 0 <= i < |r| ensures r[i].msgType != t {
      assert r[i].msgType == msgs[i].msgType;
    }
  }

  lemma VotedKeepsNone(msgs: seq<Message>, v: Vote, ok: bool, t: MsgType)
    requires NoneOfType(msgs, t)
    ensures NoneOfType(Voted(msgs, v, ok), t)
  {
    var r := Voted(msgs, v, ok);
    forall i | 0 <= i < |r| ensures r[i].msgType != t {
      assert r[i].(feedback := msgs[i].feedback) == msgs[i];
    }
  }

  /** With no bare loading element in the panel, the rebuild runs to the end. */
  lemma NoneBareRunsThrough(msgs: seq<Message>)
    requires NoneOfType(msgs, Loading(false))
    ensures FirstBare(msgs) == |msgs|
  {
  }

  lemma RebuiltNothing(msgs: seq<Message>, last: Option<nat>, base: nat)
    ensures RebuiltUpTo(msgs, last, 0, base) == msgs
  {
  }

  lemma RebuiltStep(msgs: seq<Message>, last: Option<nat>, k: nat, base: nat)
    requires k < |msgs|
    ensures RebuiltUpTo(msgs, last, k + 1, base) ==
      RebuiltUpTo(msgs, last, k, base)[k := RefreshOne(msgs[k], last == Some(k), base + k)]
  {
  }

  lemma RefreshedAt(msgs: seq<Message>, base: nat, i: nat)
    requires i < |msgs|
    ensures Refreshed(msgs, base)[i] ==
      if i < FirstBare(msgs) then RefreshOne(msgs[i], LastSystemPos(msgs) == Some(i), base + i) else msgs[i]
  {
  }

  lemma RefreshOneValid(m: Message, isLast: bool, buttons: nat, created: nat, created': nat)
    requires WellFormed(m, created) && created <= created' && buttons < created'
    ensures WellFormed(m, created')
    ensures WellFormed(RefreshOne(m, isLast, buttons), created')
  {
  }

  lemma UpdateValid(msgs: seq<Message>, counter: int, created: nat, pos: nat, m: Message)
    requires ValidMessages(msgs, counter, created) && pos < |msgs|
    requires m.id == msgs[pos].id && m.index == msgs[pos].index && m.msgType == msgs[pos].msgType
    requires m.rollback == msgs[pos].rollback && m.generated == msgs[pos].generated
    requires m.feedback.Some? ==>
      m.generated && !(m.feedback.value.up && m.feedback.value.down) && m.feedback.value.buttons < created
    ensures ValidMessages(msgs[pos := m], counter, created)
  {
    IndicesUpdate(msgs, pos, m);
  }

  lemma ReleasedValid(msgs: seq<Message>, counter: int, created: nat, r: PendingRollback)
    requires ValidMessages(msgs, counter, created)
    ensures ValidMessages(Released(msgs, r), counter, created)
  {
    var s := Released(msgs, r);
    IndicesSameIndex(s, msgs);
    forall i, j | 0 <= i < j < |s| ensures s[i].id != s[j].id {
      assert s[i].id == msgs[i].id && s[j].id == msgs[j].id;
    }
    forall i, j | 0 <= i < j < |s| && s[i].msgType.Loading? ensures s[j].msgType != s[i].msgType {
      assert s[i].msgType == msgs[i].msgType && s[j].msgType == msgs[j].msgType;
    }
  }

  lemma IndicesSnoc(msgs: seq<Message>, m: Message)
    ensures Indices(msgs + [m]) == Indices(msgs) + (if m.index.Some? then [m.index.value] else [])
  {
    assert (msgs + [m])[..|msgs|] == msgs;
  }

  /** The indices of two panels one after the other. */
  lemma {:induction false} IndicesConcat(a: seq<Message>, b: seq<Message>)
    ensures Indices(a + b) == Indices(a) + Indices(b)
    decreases |b|
  {
    if b == [] {
      assert a + b == a;
    } else {
      var init, last := b[..|b| - 1], b[|b| - 1];
      var tail := if last.index.Some? then [last.index.value] else [];
      IndicesConcat(a, init);
      assert (a + b)[..|a + b| - 1] == a + init && (a + b)[|a + b| - 1] == last;
      assert Indices(a + b) == Indices(a + init) + tail;
      assert Indices(b) == Indices(init) + tail;
      assert Indices(a + b) == (Indices(a) + Indices(init)) + tail;
    }
  }

  /** Removing an element without an index keeps the indices. */
  lemma IndicesRemove(msgs: seq<Message>, p: nat)
    requires p < |msgs| && msgs[p].index.None?
    ensures Indices(RemoveAt(msgs, p)) == Indices(msgs)
  {
    var front, rest, back := msgs[..p], msgs[p..], msgs[p + 1..];
    assert msgs == front + rest;
    assert rest == [msgs[p]] + back;
    IndicesConcat(front, rest);
    IndicesConcat([msgs[p]], back);
    assert Indices([msgs[p]]) == [] by {
      assert [msgs[p]][..0] == [];
    }
    IndicesConcat(front, back);
    assert Indices(rest) == Indices(back);
    assert Indices(msgs) == Indices(front) + Indices(back);
    assert RemoveAt(msgs, p) == front + back;
  }

  /** The indices of a prefix are a prefix of the indices. */
  lemma {:induction false} IndicesPrefix(msgs: seq<Message>, n: nat)
    requires n <= |msgs|
    ensures |Indices(msgs[..n])| <= |Indices(msgs)| && Indices(msgs[..n]) == Indices(msgs)[..|Indices(msgs[..n])|]
    decreases |msgs|
  {
    if n < |msgs| {
      var init := msgs[..|msgs| - 1];
      assert msgs[..n] == init[..n];
      IndicesPrefix(init, n);
    } else {
      assert msgs[..n] == msgs;
    }
  }

  /** Two lists with the same indices, position by position, have the same `Indices`. */
  lemma {:induction false} IndicesSameIndex(a: seq<Message>, b: seq<Message>)
    requires |a| == |b| && forall i :: 0 <= i < |a| ==> a[i].index == b[i].index
    ensures Indices(a) == Indices(b)
    decreases |a|
  {
    if a != [] {
      IndicesSameIndex(a[..|a| - 1], b[..|b| - 1]);
    }
  }

  lemma IndicesUpdate(msgs: seq<Message>, pos: nat, m: Message)
    requires pos < |msgs| && m.index == msgs[pos].index
    ensures Indices(msgs[pos := m]) == Indices(msgs)
  {
    IndicesSameIndex(msgs[pos := m], msgs);
  }

  lemma RefreshedKeepsIndices(msgs: seq<Message>, base: nat)
    ensures Indices(Refreshed(msgs, base)) == Indices(msgs)
  {
    IndicesSameIndex(Refreshed(msgs, base), msgs);
  }

  // ---------------------------------------------------------------- lemmas

  /** The messages `addMessage` produces from an empty panel with the counter at 0. */
  datatype Added = Added(text: string, msgType: MsgType, generated: bool)

  function Build(adds: seq<Added>): (c: (seq<Message>, int))
    ensures |c.0| == |adds| && c.1 >= 0
  {
    if adds == [] then ([], 0)
    else
      var (msgs, counter) := Build(adds[..|adds| - 1]);
      var a := adds[|adds| - 1];
      (msgs + [NewMessage(a.text, a.msgType, a.generated, counter, |msgs|)],
       counter + if a.msgType == System then 1 else 0)
  }

  /** Starting from an empty panel, the system messages are numbered 0, 1, 2, … in the
      order they were added, one number each, and the counter is their number. */
  lemma {:induction false} BuildIndices(adds: seq<Added>)
    ensures Indices(Build(adds).0) == Range(0, Build(adds).1)
  {
    if adds != [] {
      var init := adds[..|adds| - 1];
      var a := adds[|adds| - 1];
      BuildIndices(init);
      var (msgs, counter) := Build(init);
      var m := NewMessage(a.text, a.msgType, a.generated, counter, |msgs|);
      IndicesSnoc(msgs, m);
      if a.msgType == System {
        assert Range(0, counter) + [counter] == Range(0, counter + 1);
      }
    }
  }

  /** Up to the first bare loading element, an element with the `system-message` class
      has a rollback button after the rebuild exactly when it has a positive index and
      some later element has that class too — a loading element included; from the bare
      loading element on, nothing changes. */
  lemma RollbackButtonPlacement(msgs: seq<Message>, base: nat, i: nat)
    requires i < |msgs| && IsSystem(msgs[i])
    ensures i < FirstBare(msgs) ==> (Refreshed(msgs, base)[i].rollback <==>
      msgs[i].index.Some? && msgs[i].index.value > 0 &&
      exists j :: i < j < |msgs| && IsSystem(msgs[j]))
    ensures i >= FirstBare(msgs) ==> Refreshed(msgs, base)[i] == msgs[i]
  {
    var last := LastSystemPos(msgs);
    if last == Some(i) {
      assert !exists j :: i < j < |msgs| && IsSystem(msgs[j]);
    } else {
      assert last.Some? && last.value > i;
      assert IsSystem(msgs[last.value]);
    }
  }

  /** An answer typed out while a command is being generated: the command's loading
      element, which comes after it, counts as the last system message, so every indexed
      message before it, the newest answer included, gets a rollback button when its
      index is positive, and the loop then throws at the loading element. */
  lemma SpinnerCountsAsLast(msgs: seq<Message>, base: nat, spinner: Message, i: nat)
    requires Bare(spinner) && NoneOfType(msgs, Loading(false))
    requires i < |msgs| && msgs[i].msgType == System
    ensures Refreshed(msgs + [spinner], base)[i].rollback <==> msgs[i].index.Some? && msgs[i].index.value > 0
    ensures Refreshed(msgs + [spinner], base)[|msgs|] == spinner
  {
    var all := msgs + [spinner];
    assert all[|msgs|] == spinner;
    assert FirstBare(all) == |msgs| by {
      forall j | 0 <= j < |msgs| ensures all[j].msgType != Loading(false) {
        assert all[j] == msgs[j];
      }
    }
    assert all[i] == msgs[i];
    RollbackButtonPlacement(all, base, i);
    assert IsSystem(all[|msgs|]);
    RollbackButtonPlacement(all, base, |msgs|);
  }

  /** Up to the first bare loading element, exactly the generated answers have feedback
      buttons after the rebuild: a new pair named after the position, keeping the active
      states, enabled. Elements without the `system-message` class, and everything from
      the bare loading element on, are unchanged; text and index are always kept. */
  lemma FeedbackButtonPlacement(msgs: seq<Message>, base: nat, i: nat)
    requires i < |msgs|
    ensures i < FirstBare(msgs) && IsSystem(msgs[i]) ==>
      (Refreshed(msgs, base)[i].feedback.Some? <==> msgs[i].generated)
    ensures i < FirstBare(msgs) && IsSystem(msgs[i]) && msgs[i].generated && msgs[i].feedback.Some? ==>
      Refreshed(msgs, base)[i].feedback ==
        Some(Feedback(msgs[i].feedback.value.up, msgs[i].feedback.value.down, false, base + i))
    ensures i < FirstBare(msgs) && IsSystem(msgs[i]) && msgs[i].generated && msgs[i].feedback.None? ==>
      Refreshed(msgs, base)[i].feedback == Some(Feedback(false, false, false, base + i))
    ensures !IsSystem(msgs[i]) || i >= FirstBare(msgs) ==> Refreshed(msgs, base)[i] == msgs[i]
    ensures Refreshed(msgs, base)[i].text == msgs[i].text && Refreshed(msgs, base)[i].index == msgs[i].index
  {
  }

  /** A successful rollback to an existing index keeps the messages up to and including
      that system message and removes the rest; to an index no system message has, it
      removes nothing. */
  lemma RollbackTruncation(msgs: seq<Message>, target: int)
    ensures |Truncated(msgs, target)| <= |msgs| && Truncated(msgs, target) == msgs[..|Truncated(msgs, target)|]
    ensures (exists i :: 0 <= i < |msgs| && IsSystem(msgs[i]) && msgs[i].index == Some(target)) ==>
      var r := Truncated(msgs, target);
      r != [] && IsSystem(r[|r| - 1]) && r[|r| - 1].index == Some(target) &&
      forall j :: 0 <= j < |r| - 1 ==> !(IsSystem(r[j]) && r[j].index == Some(target))
    ensures (forall i :: 0 <= i < |msgs| ==> !(IsSystem(msgs[i]) && msgs[i].index == Some(target))) ==>
      Truncated(msgs, target) == msgs
  {
    var p := FirstWithIndex(msgs, target);
    if p.None? {
      assert msgs[..|msgs|] == msgs;
    }
  }

  /** The truncation is made when the answer arrives: once the target is in the panel,
      everything added after the click, the command and the answer of a request made in
      the meantime included, goes as well. */
  lemma RollbackDropsLaterMessages(msgs: seq<Message>, later: seq<Message>, target: int)
    requires FirstWithIndex(msgs, target).Some?
    ensures Truncated(msgs + later, target) == Truncated(msgs, target)
  {
    FirstWithIndexAppend(msgs, later, target);
    var p := FirstWithIndex(msgs, target).value;
    assert (msgs + later)[..p + 1] == msgs[..p + 1];
  }

  lemma {:induction false} FirstWithIndexAppend(msgs: seq<Message>, later: seq<Message>, target: int)
    requires FirstWithIndex(msgs, target).Some?
    ensures FirstWithIndex(msgs + later, target) == FirstWithIndex(msgs, target)
  {
    assert (msgs + later)[0] == msgs[0];
    if !(IsSystem(msgs[0]) && msgs[0].index == Some(target)) {
      assert (msgs + later)[1..] == msgs[1..] + later;
      FirstWithIndexAppend(msgs[1..], later, target);
    }
  }

  /** The loading guard holds only until the next rebuild: every system message the
      rebuild reaches gets a new rollback button that is not loading, so a second
      rollback to the same message can be sent while the first is pending. */
  lemma RebuiltRollbackClickable(msgs: seq<Message>, base: nat, i: nat)
    requires i < |msgs| && i < FirstBare(msgs) && IsSystem(msgs[i])
    ensures Refreshed(msgs, base)[i].rollbackLoading.None?
    ensures Refreshed(msgs, base)[i].rollback <==>
      LastSystemPos(msgs) != Some(i) && msgs[i].index.Some? && msgs[i].index.value > 0
  {
    RefreshedAt(msgs, base, i);
  }

  /** A feedback click followed by a successful answer leaves exactly the clicked button
      active, and a click on the active button sends nothing. */
  lemma FeedbackExclusive(f: Feedback, kind: FeedbackKind)
    ensures var g := Settled(f, kind, true); g.up != g.down
    ensures IsActive(f, kind) ==> !Clickable(f, kind)
  {
  }

  /** When the clicked pair is still shown, the request settles that message's buttons,
      and nothing else changes. */
  lemma ShownVoteSettles(msgs: seq<Message>, v: Vote, ok: bool, p: nat)
    requires DistinctIds(msgs)
    requires p < |msgs| && msgs[p].id == v.message
    requires msgs[p].feedback.Some? && msgs[p].feedback.value.buttons == v.buttons
    ensures Voted(msgs, v, ok) == msgs[p := msgs[p].(feedback := Some(Settled(msgs[p].feedback.value, v.kind, ok)))]
  {
  }

  /** A vote whose answer arrives after the message's buttons were rebuilt is not shown:
      the button clicked stays inactive and the other thumb is switched off, so neither
      is active. */
  lemma RebuiltVoteLost(msgs: seq<Message>, base: nat, v: Vote, p: nat)
    requires DistinctIds(msgs)
    requires p < |msgs| && p < FirstBare(msgs) && msgs[p].id == v.message && msgs[p].msgType == System
    requires msgs[p].generated && msgs[p].feedback.Some? && msgs[p].feedback.value.buttons == v.buttons
    requires !IsActive(msgs[p].feedback.value, v.kind) && v.buttons < base
    ensures var r := Voted(Refreshed(msgs, base), v, true);
      r[p].feedback.Some? && !IsActive(r[p].feedback.value, v.kind) && !IsActive(r[p].feedback.value, Other(v.kind))
  {
    var rebuilt := Refreshed(msgs, base);
    FeedbackButtonPlacement(msgs, base, p);
    RefreshedFindsShown(msgs, base, p);
    var f := rebuilt[p].feedback.value;
    assert Voted(rebuilt, v, true)[p] == rebuilt[p].(feedback := Some(Detached(f, v.kind, true)));
  }

  /** With the corrected settling the same vote is shown: the clicked button is active
      and the other not. */
  lemma RebuiltVoteShownCorrected(msgs: seq<Message>, base: nat, v: Vote, p: nat)
    requires DistinctIds(msgs)
    requires p < |msgs| && p < FirstBare(msgs) && msgs[p].id == v.message && msgs[p].msgType == System
    requires msgs[p].generated && msgs[p].feedback.Some?
    ensures var r := VotedCorrected(Refreshed(msgs, base), v, true);
      r[p].feedback.Some? && IsActive(r[p].feedback.value, v.kind) && !IsActive(r[p].feedback.value, Other(v.kind))
  {
    var rebuilt := Refreshed(msgs, base);
    FeedbackButtonPlacement(msgs, base, p);
    RefreshedFindsShown(msgs, base, p);
    var f := rebuilt[p].feedback.value;
    assert VotedCorrected(rebuilt, v, true)[p] == rebuilt[p].(feedback := Some(Settled(f, v.kind, true)));
  }

  /** After a rebuild the element at `p` is still the one found by its name. */
  lemma RefreshedFindsShown(msgs: seq<Message>, base: nat, p: nat)
    requires DistinctIds(msgs) && p < |msgs|
    ensures PositionOf(Refreshed(msgs, base), msgs[p].id) == Some(p)
  {
    var r := Refreshed(msgs, base);
    assert r[p].id == msgs[p].id;
    forall j | 0 <= j < |r| && j != p ensures r[j].id != msgs[p].id {
      assert r[j].id == msgs[j].id;
    }
  }
}
