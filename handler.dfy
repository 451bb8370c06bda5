/**
  The body of the `onCreate` handler as a machine that runs from one `await` to the
  next. The replies of the two document reads and of the send are inputs (`Env`);
  each I/O call the handler makes is recorded, in order, in an effect trace.
  Everything after reading the notification and the `userId` sits in one `try`, so
  a rejected read or send ends the run in the `catch`, and every run ends by
  returning `null`.
 */
module Handler {
  import opened JsValues
  import opened Decision

  const SettingsCollection := "user_settings"
  const TokensCollection := "user_tokens"

  /** How an awaited promise settles. */
  datatype Reply<T> = Resolved(value: T) | Rejected

  /** What the outside world answers to the handler's three I/O calls. */
  datatype Env = Env(settingsRead: Reply<Snapshot>, tokenRead: Reply<Snapshot>, sendReply: Reply<string>)

  /** One run of the handler: the `userId` path parameter, the created notification
      document's data, and the replies it will get. */
  datatype Invocation = Invocation(userId: string, notification: Fields, env: Env)

  /** An I/O call: a document read `collection/docId`, or a message send (`admin.messaging().send`). */
  datatype Effect = Read(collection: string, docId: string) | Dispatch(message: Message)

  /** The awaited call whose rejection was caught. */
  datatype Stage = SettingsLookup | TokenLookup | Delivery

  /** Which `return null` ended the run. */
  datatype Exit = Disabled | NoToken | Delivered | Caught(stage: Stage)

  /** The await the handler is about to perform next, or the return it reached. */
  datatype Pc = AtSettingsRead | AtTokenRead | AtSend(message: Message) | Done(exit: Exit)

  datatype State = State(pc: Pc, effects: seq<Effect>)

  const Start := State(AtSettingsRead, [])

  /** The number of awaits still ahead. */
  function Rank(pc: Pc): nat {
    match pc
    case AtSettingsRead => 3
    case AtTokenRead => 2
    case AtSend(_) => 1
    case Done(_) => 0
  }

  /** The number of sends still possible: one until the handler has returned. */
  function SendsAhead(pc: Pc): nat {
    if pc.Done? then 0 else 1
  }

  /** The number of sends in a trace. */
  function Sends(effects: seq<Effect>): nat {
    if effects == [] then 0
    else (if effects[0].Dispatch? then 1 else 0) + Sends(effects[1..])
  }

  lemma {:induction false} SendsAppend(a: seq<Effect>, b: seq<Effect>)
    ensures Sends(a + b) == Sends(a) + Sends(b)
  {
    if a == [] {
      assert a + b == b;
    } else {
      assert (a + b)[1..] == a[1..] + b;
      SendsAppend(a[1..], b);
    }
  }

  /** One await and the code up to the next one: perform the I/O call, then, by its
      reply, go on, return, or land in the `catch`. */
  function Step(inv: Invocation, s: State): (t: State)
    requires !s.pc.Done?
    ensures Rank(t.pc) < Rank(s.pc)
    ensures |t.effects| == |s.effects| + 1 && t.effects[..|s.effects|] == s.effects
    ensures Sends(t.effects) + SendsAhead(t.pc) <= Sends(s.effects) + SendsAhead(s.pc)
  {
    match s.pc
    case AtSettingsRead =>
      var effects := s.effects + [Read(SettingsCollection, inv.userId)];
      SendsAppend(s.effects, [Read(SettingsCollection, inv.userId)]);
      (match inv.env.settingsRead
       case Rejected => State(Done(Caught(SettingsLookup)), effects)
       case Resolved(settings) =>
         if !PushEnabled(settings) then State(Done(Disabled), effects)
         else State(AtTokenRead, effects))
    case AtTokenRead =>
      var effects := s.effects + [Read(TokensCollection, inv.userId)];
      SendsAppend(s.effects, [Read(TokensCollection, inv.userId)]);
      (match inv.env.tokenRead
       case Rejected => State(Done(Caught(TokenLookup)), effects)
       case Resolved(tokenDoc) =>
         var fcmToken := FcmToken(tokenDoc);
         if !Truthy(fcmToken) then State(Done(NoToken), effects)
         else State(AtSend(BuildMessage(inv.notification, fcmToken)), effects))
    case AtSend(message) =>
      var effects := s.effects + [Dispatch(message)];
      SendsAppend(s.effects, [Dispatch(message)]);
      (match inv.env.sendReply
       case Rejected => State(Done(Caught(Delivery)), effects)
       case Resolved(_) => State(Done(Delivered), effects))
  }

  /** Runs the handler from `s` until it returns. */
  function Run(inv: Invocation, s: State): (r: State)
    decreases Rank(s.pc)
    ensures r.pc.Done?
    ensures |s.effects| <= |r.effects| <= |s.effects| + Rank(s.pc)
    ensures r.effects[..|s.effects|] == s.effects
    ensures Sends(r.effects) <= Sends(s.effects) + SendsAhead(s.pc)
  {
    if s.pc.Done? then s else Run(inv, Step(inv, s))
  }

  /** One invocation of the handler: it always returns, having first read the
      settings document, made at most three I/O calls and sent at most one message. */
  function Handle(inv: Invocation): (r: State)
    ensures r.pc.Done?
    ensures 1 <= |r.effects| <= 3
    ensures r.effects[0] == Read(SettingsCollection, inv.userId)
    ensures Sends(r.effects) <= 1
  {
    var first := Step(inv, Start);
    assert first.effects == [Read(SettingsCollection, inv.userId)];
    Run(inv, first)
  }

  /** When push is off the handler stops after the settings read: the token document
      is never read and nothing is sent, whatever the token store would answer. */
  lemma {:induction false} DisabledReadsNoToken(inv: Invocation)
    requires inv.env.settingsRead.Resolved? && !PushEnabled(inv.env.settingsRead.value)
    ensures Handle(inv) == State(Done(Disabled), [Read(SettingsCollection, inv.userId)])
  {
  }

  /** A failed lookup is caught: the run returns right after the failing read and
      sends nothing. */
  lemma {:induction false} FailedLookupIsCaught(inv: Invocation)
    ensures inv.env.settingsRead.Rejected? ==>
      Handle(inv) == State(Done(Caught(SettingsLookup)), [Read(SettingsCollection, inv.userId)])
    ensures inv.env.settingsRead.Resolved? && PushEnabled(inv.env.settingsRead.value) && inv.env.tokenRead.Rejected? ==>
      Handle(inv) == State(Done(Caught(TokenLookup)),
                           [Read(SettingsCollection, inv.userId), Read(TokensCollection, inv.userId)])
  {
    var s1 := Step(inv, Start);
    if s1.pc.AtTokenRead? {
      var s2 := Step(inv, s1);
      assert Run(inv, s1) == Run(inv, s2);
    }
  }

  /** When both reads succeed the handler carries out `Decide`: it returns early on
      the two skips, and otherwise sends exactly the decided message, once, as its
      last I/O call. */
  lemma {:induction false} HandleFollowsDecide(inv: Invocation)
    requires inv.env.settingsRead.Resolved? && inv.env.tokenRead.Resolved?
    ensures
      var p := Decide(inv.env.settingsRead.value, inv.env.tokenRead.value, inv.notification);
      var r := Handle(inv);
      var lookups := [Read(SettingsCollection, inv.userId), Read(TokensCollection, inv.userId)];
      && (p.SkipDisabled? ==> r == State(Done(Disabled), lookups[..1]))
      && (p.SkipNoToken? ==> r == State(Done(NoToken), lookups))
      && (p.Send? ==> r.effects == lookups + [Dispatch(p.message)])
      && (p.Send? ==> r.pc.exit == if inv.env.sendReply.Resolved? then Delivered else Caught(Delivery))
  {
    var s1 := Step(inv, Start);
    if s1.pc.AtTokenRead? {
      var s2 := Step(inv, s1);
      assert Run(inv, s1) == Run(inv, s2);
      if s2.pc.AtSend? {
        var s3 := Step(inv, s2);
        assert Run(inv, s2) == s3;
      }
    }
  }

  /** A message goes out only to a user whose settings enable push, and only to the
      token stored for them, and it is the message `Decide` builds. */
  lemma {:induction false} SentOnlyWhenAllowed(inv: Invocation, m: Message)
    requires Dispatch(m) in Handle(inv).effects
    ensures inv.env.settingsRead.Resolved? && PushEnabled(inv.env.settingsRead.value)
    ensures inv.env.tokenRead.Resolved?
    ensures Decide(inv.env.settingsRead.value, inv.env.tokenRead.value, inv.notification) == Send(m)
    ensures m.token == FcmToken(inv.env.tokenRead.value) && Truthy(m.token)
  {
    var s1 := Step(inv, Start);
    if s1.pc.AtTokenRead? {
      var s2 := Step(inv, s1);
      assert Run(inv, s1) == Run(inv, s2);
      if s2.pc.AtSend? {
        var s3 := Step(inv, s2);
        assert Run(inv, s2) == s3;
        assert s3.effects[2] == Dispatch(s2.pc.message);
      }
    }
  }
}
