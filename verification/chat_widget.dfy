/**
 * The chat panel's transcript (`AIChatWidget` in src/components/AIChatWidget.tsx): `send`
 * appends the user's message, streams the reply, and folds every delta into one growing
 * assistant message with `upsert`.
 */
module ChatWidget {
  import opened JsString
  import opened ChatStream

  datatype Role = User | Assistant
  datatype Msg = Msg(role: Role, content: string)

  /**
   * The `setMessages` updater inside `upsert`: the last message, when it is the assistant's,
   * gets `soFar` as its content; otherwise an assistant message holding `soFar` is appended.
   * Every earlier message is kept as it was.
   */
  function Upsert(prev: seq<Msg>, soFar: string): (r: seq<Msg>)
    ensures |prev| > 0 && prev[|prev| - 1].role == Assistant ==> |r| == |prev|
    ensures !(|prev| > 0 && prev[|prev| - 1].role == Assistant) ==> |r| == |prev| + 1
    ensures r[|r| - 1] == Msg(Assistant, soFar)
    ensures r[..|r| - 1] == prev[..|r| - 1]
  {
    if |prev| > 0 && prev[|prev| - 1].role == Assistant then
      prev[..|prev| - 1] + [prev[|prev| - 1].(content := soFar)]
    else
      prev + [Msg(Assistant, soFar)]
  }

  /** The deltas joined in order: the value `soFar` reaches. */
  function Join(ds: seq<string>): string {
    if ds == [] then "" else Join(ds[..|ds| - 1]) + ds[|ds| - 1]
  }

  /** The assistant's part of the transcript after the deltas `ds`: nothing, or one message. */
  function Reply(ds: seq<string>): seq<Msg> {
    if ds == [] then [] else [Msg(Assistant, Join(ds))]
  }

  /** The deltas among the first `k` callbacks of the stream, in order. */
  function DeltasIn(events: seq<StreamEvent>, k: nat): seq<string>
    requires k <= |events|
  {
    if k == 0 then []
    else DeltasIn(events, k - 1) + (if events[k - 1].Delta? then [events[k - 1].text] else [])
  }

  /** The notices among the first `k` callbacks of the stream, in order. */
  function ToastsIn(events: seq<StreamEvent>, k: nat): seq<Notice>
    requires k <= |events|
  {
    if k == 0 then []
    else ToastsIn(events, k - 1) + (if events[k - 1].Toast? then [events[k - 1].notice] else [])
  }

  /** Whether `onDone` came among the first `k` callbacks. */
  function DoneIn(events: seq<StreamEvent>, k: nat): bool
    requires k <= |events|
  {
    k > 0 && (events[k - 1] == Done || DoneIn(events, k - 1))
  }

  lemma {:induction false} DoneInPrefix(events: seq<StreamEvent>, k: nat)
    requires k <= |events|
    ensures DoneIn(events, k) <==> Done in events[..k]
    decreases k
  {
    if k > 0 {
      DoneInPrefix(events, k - 1);
      assert events[..k] == events[..k - 1] + [events[k - 1]];
    }
  }

  function DeltasOf(events: seq<StreamEvent>): seq<string> {
    DeltasIn(events, |events|)
  }

  function ToastsOf(events: seq<StreamEvent>): seq<Notice> {
    ToastsIn(events, |events|)
  }

  /** The callbacks of a readable body: one `onDelta` per delta, then `onDone`. */
  lemma DeltasOfDeltaEvents(ds: seq<string>)
    ensures DeltasOf(DeltaEvents(ds) + [Done]) == ds
    ensures ToastsOf(DeltaEvents(ds) + [Done]) == []
    ensures Done !in DeltaEvents(ds)
  {
    var es := DeltaEvents(ds) + [Done];
    DeltasInDeltaEvents(ds, es, |ds|);
    assert ds[..|ds|] == ds;
    assert DeltasIn(es, |ds|) + [] == DeltasIn(es, |ds|);
  }

  lemma {:induction false} DeltasInDeltaEvents(ds: seq<string>, es: seq<StreamEvent>, k: nat)
    requires k <= |ds| <= |es| && forall i :: 0 <= i < |ds| ==> es[i] == Delta(ds[i])
    ensures DeltasIn(es, k) == ds[..k] && ToastsIn(es, k) == []
    decreases k
  {
    if k > 0 {
      DeltasInDeltaEvents(ds, es, k - 1);
      assert ds[..k - 1] + [ds[k - 1]] == ds[..k];
    }
  }

  /**
   * The deltas `send` receives for a given response: none for statuses 429 and 402 or a
   * failed request, otherwise those of the whole body.
   */
  function ReceivedDeltas(parse: Parser, status: int, hasBody: bool, chunks: seq<string>): seq<string> {
    if status == 429 || status == 402 || !IsOk(status) || !hasBody then []
    else ScanLines(parse, Concat(chunks)).deltas
  }

  /** The notices `send` raises for a given response. */
  function RaisedNotices(status: int, hasBody: bool): seq<Notice> {
    if status == 429 then [RateLimited]
    else if status == 402 then [CreditsExhausted]
    else if !IsOk(status) || !hasBody then [ResponseFailed]
    else []
  }

  /** What `send` sees of a response, read off the callbacks `streamChat` made. */
  lemma ResponseCallbacks(parse: Parser, status: int, hasBody: bool, chunks: seq<string>,
                          events: seq<StreamEvent>, threw: bool)
    requires Responds(parse, status, hasBody, chunks, events, threw)
    ensures DeltasOf(events) == ReceivedDeltas(parse, status, hasBody, chunks)
    ensures ToastsOf(events) + (if threw then [ResponseFailed] else []) == RaisedNotices(status, hasBody)
    ensures threw || Done in events
  {
    if status == 429 || status == 402 {
      assert DeltasIn(events, 1) == [] && ToastsIn(events, 1) == [events[0].notice];
    } else if IsOk(status) && hasBody {
      DeltasOfDeltaEvents(ScanLines(parse, Concat(chunks)).deltas);
    }
  }

  /** How the callbacks seen so far grow by one. */
  lemma CallbackStep(events: seq<StreamEvent>, k: nat)
    requires k < |events|
    ensures events[k].Delta? ==> DeltasIn(events, k + 1) == DeltasIn(events, k) + [events[k].text]
    ensures !events[k].Delta? ==> DeltasIn(events, k + 1) == DeltasIn(events, k)
    ensures events[k].Toast? ==> ToastsIn(events, k + 1) == ToastsIn(events, k) + [events[k].notice]
    ensures !events[k].Toast? ==> ToastsIn(events, k + 1) == ToastsIn(events, k)
    ensures DoneIn(events, k + 1) == (DoneIn(events, k) || events[k] == Done)
  {
    assert DeltasIn(events, k) + [] == DeltasIn(events, k);
    assert ToastsIn(events, k) + [] == ToastsIn(events, k);
  }

  /** One more delta through `upsert`: the single assistant reply grows by that delta. */
  lemma UpsertGrowsReply(base: seq<Msg>, ds: seq<string>, t: string)
    requires |base| > 0 && base[|base| - 1].role == User
    ensures Join(ds + [t]) == Join(ds) + t
    ensures Upsert(base + Reply(ds), Join(ds) + t) == base + Reply(ds + [t])
  {
    assert (ds + [t])[..|ds|] == ds;
  }

  class ChatPanel {
    var messages: seq<Msg>
    var input: string
    var loading: bool

    constructor ()
      ensures messages == [] && input == "" && !loading
    {
      messages, input, loading := [], "", false;
    }

    /**
     * `send`. Nothing happens when the trimmed input is empty or a reply is still loading.
     * Otherwise the input is cleared, the transcript gains the user's message and, when at
     * least one delta arrived, exactly one assistant message holding all deltas joined;
     * loading is over when `send` finishes, whatever the response.
     */
    method Send(parse: Parser, status: int, hasBody: bool, chunks: seq<string>)
      returns (notices: seq<Notice>)
      modifies this
      ensures Trim(old(input)) == "" || old(loading) ==>
        messages == old(messages) && input == old(input) && loading == old(loading) && notices == []
      ensures Trim(old(input)) != "" && !old(loading) ==>
        messages == old(messages) + [Msg(User, Trim(old(input)))] + Reply(ReceivedDeltas(parse, status, hasBody, chunks))
      ensures Trim(old(input)) != "" && !old(loading) ==>
        input == "" && !loading && notices == RaisedNotices(status, hasBody)
    {
      notices := [];
      var text := Trim(input);
      if text == "" || loading {
        return;
      }
      input := "";
      var userMsg := Msg(User, text);
      messages := messages + [userMsg];
      loading := true;

      notices := Stream(parse, status, hasBody, chunks);
    }

    /**
     * The `try { await streamChat(...) } catch { ... }` part of `send`, entered with the
     * user's message last: the transcript gains the reply, the notices are raised, and loading
     * is over whatever the response.
     */
    method Stream(parse: Parser, status: int, hasBody: bool, chunks: seq<string>)
      returns (notices: seq<Notice>)
      requires |messages| > 0 && messages[|messages| - 1].role == User
      modifies this
      ensures messages == old(messages) + Reply(ReceivedDeltas(parse, status, hasBody, chunks))
      ensures notices == RaisedNotices(status, hasBody)
      ensures !loading && input == old(input)
    {
      var events, threw := StreamChat(parse, status, hasBody, chunks);
      ResponseCallbacks(parse, status, hasBody, chunks, events, threw);
      notices := Deliver(events);
      if threw {
        notices := notices + [ResponseFailed];
        loading := false;
      }
    }

    /**
     * The callbacks `streamChat` makes, in order: `onDelta` is `upsert`, `onDone` ends
     * loading, and a notice is shown. The transcript's last message is the user's here, so
     * the deltas end up in one new assistant message.
     */
    method Deliver(events: seq<StreamEvent>) returns (notices: seq<Notice>)
      requires |messages| > 0 && messages[|messages| - 1].role == User
      modifies this
      ensures messages == old(messages) + Reply(DeltasOf(events))
      ensures notices == ToastsOf(events)
      ensures loading == (old(loading) && Done !in events)
      ensures input == old(input)
    {
      notices := [];
      ghost var base := messages;
      ghost var ds: seq<string> := [];
      var soFar := "";
      var k := 0;
      while k < |events|
        invariant 0 <= k <= |events| && ds == DeltasIn(events, k)
        invariant soFar == Join(ds) && messages == base + Reply(ds)
        invariant notices == ToastsIn(events, k)
        invariant loading == (old(loading) && !DoneIn(events, k))
        invariant input == old(input)
      {
        CallbackStep(events, k);
        match events[k] {
          case Delta(t) =>
            UpsertGrowsReply(base, ds, t);
            soFar := soFar + t;
            messages := Upsert(messages, soFar);
            ds := ds + [t];
          case Done =>
            loading := false;
          case Toast(n) =>
            notices := notices + [n];
        }
        k := k + 1;
      }
      DoneInPrefix(events, k);
      assert events[..k] == events;
    }
  }
}
