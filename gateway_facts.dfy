/** What the gateway's operations promise, proved on the state machine of
    `GatewaySpec`. */
module GatewayFacts {
  import opened Wrappers
  import opened TelegramTypes
  import opened UpdateContext
  import opened GatewaySpec

  /** `s` is `t` with possibly more requests and history rows and nothing
      else changed. */
  predicate Extends(t: State, s: State) {
    s.update == t.update && s.ctx == t.ctx && s.timeInit == t.timeInit && s.appendText == t.appendText
    && |t.calls| <= |s.calls| && s.calls[..|t.calls|] == t.calls
    && |t.history| <= |s.history| && s.history[..|t.history|] == t.history
    && s.steps == t.steps && s.jobs == t.jobs
  }

  lemma ExtendsTrans(a: State, b: State, c: State)
    requires Extends(a, b) && Extends(b, c)
    ensures Extends(a, c)
  {
    assert c.calls[..|a.calls|] == c.calls[..|b.calls|][..|a.calls|];
    assert c.history[..|a.history|] == c.history[..|b.history|][..|a.history|];
  }

  function SendTarget(c: Context, customChatId: int): int
    requires c.chat.Some?
  {
    if customChatId < -1 then customChatId else c.chat.value.id
  }

  // ---------------------------------------------------------------- update

  /** Through `AddUpdateContext` the stored update is the argument, so the
      context is always the argument's. */
  lemma AddUpdateContextUsesArgument(e: Env, s: State, u: Update)
    ensures AddUpdateContext(e, s, u) == AddUpdateAsWritten(e, s.(update := Some(u)), u)
    ensures AddUpdateContext(e, s, u).exit.Returned? <==> ChatOf(u).Some?
    ensures ChatOf(u).Some? ==> AddUpdateContext(e, s, u).state.ctx == Derive(u, e.now, e.sudoers).value
  {
    DeriveFailsWithoutChat(u, e.now, e.sudoers);
  }

  /** Called on its own, `AddUpdate(u)` derives the context of the update
      stored before, whatever `u` is: two updates from different chats give
      the earlier chat's id. */
  lemma AddUpdateReadsStoredUpdate(e: Env, s: State, stored: Update, u: Update)
    requires s.update == Some(stored) && ChatOf(stored).Some? && ChatOf(u).Some?
    requires ChatOf(stored).value.id != ChatOf(u).value.id
    ensures AddUpdateAsWritten(e, s, u).state.ctx.chatId == ChatOf(stored).value.id
    ensures AddUpdate(e, s, u).state.ctx.chatId == ChatOf(u).value.id
    ensures AddUpdateAsWritten(e, s, u) != AddUpdate(e, s, u)
  {
    DeriveFailsWithoutChat(stored, e.now, e.sudoers);
    DeriveFailsWithoutChat(u, e.now, e.sudoers);
  }

  // ---------------------------------------------------------------- sending

  /** Send changes nothing but the requests, the sent message and the
      history, and those only by appending. */
  lemma SendExtends(e: Env, s: State, text: string, markup: Markup, replyToMsgId: int, customChatId: int,
                    disablePreview: bool, deleteAt: int, includeSender: bool)
    ensures var r := Send(e, s, text, markup, replyToMsgId, customChatId, disablePreview, deleteAt, includeSender);
      Extends(s, r.state)
  {
    if s.ctx.chat.Some? && SendBody(e, s, text) != "" {
      var a := SendAttempts(e, s, SendTarget(s.ctx, customChatId), SendBody(e, s, text),
                            ReplyTarget(s.ctx, replyToMsgId), markup, disablePreview);
      assert Extends(s, a.state);
      if a.reachedEnd && a.state.sentMessage.Some? && deleteAt != 0 {
        SaveExtends(e, a.state, deleteAt, includeSender);
        ExtendsTrans(s, a.state, SaveToMessageHistory(e, a.state, deleteAt, includeSender).state);
      }
    }
  }

  lemma SaveExtends(e: Env, s: State, deleteAt: int, includeSender: bool)
    ensures Extends(s, SaveToMessageHistory(e, s, deleteAt, includeSender).state)
  {
  }

  /** The annotation is added exactly to non-empty texts not answering a
      callback. */
  lemma TimingOnlyOutsideCallbacks(e: Env, s: State, text: string)
    ensures SendBody(e, s, text) != text <==> text != "" && s.ctx.callbackQuery.None?
    ensures SendBody(e, s, text) == "" <==> text == ""
  {
    var t := Timing(s.timeInit, e.delay(s.ctx.messageDate));
    assert |t| > 0 by { assert t[0] == '\n'; }
    if text != "" && s.ctx.callbackQuery.None? {
      assert |text + t| > |text|;
    }
  }

  /** An empty text sends nothing and returns no message. */
  lemma EmptyTextSendsNothing(e: Env, s: State, markup: Markup, replyToMsgId: int, customChatId: int,
                              disablePreview: bool, deleteAt: int, includeSender: bool)
    requires s.ctx.chat.Some?
    ensures Send(e, s, "", markup, replyToMsgId, customChatId, disablePreview, deleteAt, includeSender) == Step(s, Returned(None))
  {
    TimingOnlyOutsideCallbacks(e, s, "");
  }

  /** The requests a send makes: the message, and the same message once more
      without reply target and preview setting exactly when the first try
      failed with a warning. */
  lemma SendRetriesOnlyWarnings(e: Env, s: State, text: string, markup: Markup, replyToMsgId: int, customChatId: int,
                                disablePreview: bool, deleteAt: int, includeSender: bool)
    requires s.ctx.chat.Some? && text != ""
    ensures var body := SendBody(e, s, text);
      var target := SendTarget(s.ctx, customChatId);
      var first := SendText(target, body, ReplyTarget(s.ctx, replyToMsgId), markup, disablePreview);
      var o := e.respond(|s.calls|);
      var r := Send(e, s, text, markup, replyToMsgId, customChatId, disablePreview, deleteAt, includeSender);
      r.state.calls == s.calls + [first] + (if o.Fail? && o.isWarning then [SendText(target, body, 0, markup, false)] else [])
  {
    TimingOnlyOutsideCallbacks(e, s, text);
  }

  /** Every request a send of a non-empty text makes is that text, with the
      given markup, to the target chat; there are one or two of them. */
  lemma SendCarriesText(e: Env, s: State, text: string, markup: Markup, replyToMsgId: int, customChatId: int,
                        disablePreview: bool, deleteAt: int, includeSender: bool)
    requires s.ctx.chat.Some? && text != ""
    ensures var r := Send(e, s, text, markup, replyToMsgId, customChatId, disablePreview, deleteAt, includeSender);
      Extends(s, r.state) && |s.calls| < |r.state.calls| <= |s.calls| + 2
      && forall k :: |s.calls| <= k < |r.state.calls| ==>
           r.state.calls[k].SendText? && r.state.calls[k].text == SendBody(e, s, text)
           && r.state.calls[k].markup == markup && r.state.calls[k].chatId == SendTarget(s.ctx, customChatId)
  {
    SendRetriesOnlyWarnings(e, s, text, markup, replyToMsgId, customChatId, disablePreview, deleteAt, includeSender);
    SendExtends(e, s, text, markup, replyToMsgId, customChatId, disablePreview, deleteAt, includeSender);
  }

  /** An error that is no warning ends the send at once: nothing is retried
      or recorded, and the previous sent message is returned. */
  lemma SendErrorEndsEarly(e: Env, s: State, text: string, markup: Markup, replyToMsgId: int, customChatId: int,
                           disablePreview: bool, deleteAt: int, includeSender: bool)
    requires s.ctx.chat.Some? && text != ""
    requires e.respond(|s.calls|).Fail? && !e.respond(|s.calls|).isWarning
    ensures var r := Send(e, s, text, markup, replyToMsgId, customChatId, disablePreview, deleteAt, includeSender);
      r.exit == Returned(s.sentMessage) && r.state.history == s.history && r.state.sentMessage == s.sentMessage
  {
    TimingOnlyOutsideCallbacks(e, s, text);
  }

  /** A delivered message becomes the sent message and is returned; with a
      deletion time it is recorded in the history, together with the
      sender's message when asked. */
  lemma SendRecordsDelivered(e: Env, s: State, text: string, markup: Markup, replyToMsgId: int, customChatId: int,
                             disablePreview: bool, deleteAt: int, includeSender: bool)
    requires s.ctx.chat.Some? && text != "" && e.respond(|s.calls|).Ok?
    requires includeSender ==> s.ctx.messageOrEdited.Some?
    ensures var sent := SentRef(SendTarget(s.ctx, customChatId), e.respond(|s.calls|).id);
      var flag := CommandFlag(e, s.ctx);
      var r := Send(e, s, text, markup, replyToMsgId, customChatId, disablePreview, deleteAt, includeSender);
      r.exit == Returned(Some(sent)) && r.state.sentMessage == Some(sent)
      && r.state.history == s.history
           + (if deleteAt == 0 then [] else [HistoryRow(flag, s.ctx.fromId, s.ctx.chatId, sent.messageId, deleteAt)])
           + (if deleteAt == 0 || !includeSender then []
              else [HistoryRow(flag, s.ctx.fromId, s.ctx.chatId, s.ctx.messageOrEdited.value.messageId, deleteAt)])
  {
    TimingOnlyOutsideCallbacks(e, s, text);
  }

  /** When both tries fail, the send returns and records whatever message
      was sent before, and throws when there was none. */
  lemma SendRetryFailureKeepsStale(e: Env, s: State, text: string, markup: Markup, replyToMsgId: int, customChatId: int,
                                   disablePreview: bool)
    requires s.ctx.chat.Some? && text != ""
    requires e.respond(|s.calls|).Fail? && e.respond(|s.calls|).isWarning && e.respond(|s.calls| + 1).Fail?
    ensures var r := Send(e, s, text, markup, replyToMsgId, customChatId, disablePreview, 0, false);
      (s.sentMessage.Some? ==> r.exit == Returned(s.sentMessage)) && (s.sentMessage.None? ==> r.exit.Raised?)
  {
    TimingOnlyOutsideCallbacks(e, s, text);
  }

  // ---------------------------------------------------------------- editing

  /** The difference between the edit as written and the corrected one: a
      successful edit with a deletion time records no history as written. */
  lemma EditSkipsHistoryOnSuccess(e: Env, s: State, text: string, markup: Markup, disablePreview: bool, deleteAt: int)
    requires s.sentMessage.Some? && e.respond(|s.calls|).Ok? && deleteAt != 0
    ensures EditAsWritten(e, s, text, markup, disablePreview, deleteAt, false).state.history == s.history
    ensures Edit(e, s, text, markup, disablePreview, deleteAt, false).state.history
      == s.history + [HistoryRow(CommandFlag(e, s.ctx), s.ctx.fromId, s.ctx.chatId, e.respond(|s.calls|).id, deleteAt)]
  {
  }

  /** Everywhere else the two edits agree. */
  lemma EditAgreesOtherwise(e: Env, s: State, text: string, markup: Markup, disablePreview: bool,
                            deleteAt: int, includeSender: bool)
    requires deleteAt == 0 || !e.respond(|s.calls|).Ok?
    ensures Edit(e, s, text, markup, disablePreview, deleteAt, includeSender)
      == EditAsWritten(e, s, text, markup, disablePreview, deleteAt, includeSender)
  {
  }

  /** An edit rewrites the sent message in place: one request, for the
      sent message's id, and only a warning leaves the sent message as it
      was. */
  lemma EditTargetsSentMessage(e: Env, s: State, text: string, markup: Markup, disablePreview: bool,
                               deleteAt: int, includeSender: bool)
    requires s.sentMessage.Some?
    ensures var r := Edit(e, s, text, markup, disablePreview, deleteAt, includeSender);
      |r.state.calls| == |s.calls| + 1 && r.state.calls[..|s.calls|] == s.calls
      && r.state.calls[|s.calls|].EditText? && r.state.calls[|s.calls|].messageId == s.sentMessage.value.messageId
      && (e.respond(|s.calls|).Ok? ==> r.state.sentMessage == Some(SentRef(s.ctx.chatId, e.respond(|s.calls|).id)))
      && (e.respond(|s.calls|).Fail? ==> r.state.sentMessage == s.sentMessage)
  {
    var s1 := s.(calls := s.calls + [EditText(s.ctx.chatId, s.sentMessage.value.messageId,
      if text != "" then text + Timing(s.timeInit, e.delay(s.ctx.messageDate)) else text, markup, disablePreview)]);
    var o := e.respond(|s.calls|);
    var s2 := if o.Ok? then s1.(sentMessage := Some(SentRef(s.ctx.chatId, o.id))) else s1;
    if !((o.Fail? && o.isWarning) || deleteAt == 0) {
      SaveExtends(e, s2, deleteAt, includeSender);
    }
  }

  /** Two appends to an empty text: the first piece is sent, then the
      message is edited to both pieces on separate lines. */
  lemma AppendTwice(e: Env, s: State, a: string, b: string, m1: Markup, m2: Markup)
    requires s.appendText == "" && a != "" && s.ctx.chat.Some? && e.respond(|s.calls|).Ok?
    ensures var r1 := AppendText(e, s, a, m1);
      var r2 := AppendText(e, r1.state, b, m2);
      var both := a + "\n" + b;
      r2.state.appendText == both
      && r2.state.calls == s.calls
           + [SendText(s.ctx.chat.value.id, SendBody(e, s, a), ReplyTarget(s.ctx, -1), m1, false),
              EditText(s.ctx.chatId, e.respond(|s.calls|).id, both + Timing(s.timeInit, e.delay(s.ctx.messageDate)), m2, true)]
  {
    var s0 := s.(appendText := a);
    TimingOnlyOutsideCallbacks(e, s0, a);
    var r1 := AppendText(e, s, a, m1);
    assert r1.state.appendText == a;
    assert r1.state.sentMessage == Some(SentRef(s.ctx.chat.value.id, e.respond(|s.calls|).id));
  }

  // ---------------------------------------------------------------- others

  /** A deletion is one request or, lacking a message to delete, none. */
  lemma DeleteFacts(e: Env, s: State, messageId: int)
    ensures var t := Delete(e, s, messageId);
      t == s.(calls := t.calls) && |s.calls| <= |t.calls| <= |s.calls| + 1 && t.calls[..|s.calls|] == s.calls
    ensures messageId != -1 ==> Delete(e, s, messageId).calls == s.calls + [DeleteMessage(s.ctx.chatId, messageId)]
    ensures messageId == -1 && s.sentMessage.Some? ==>
      Delete(e, s, messageId).calls == s.calls + [DeleteMessage(s.ctx.chatId, s.sentMessage.value.messageId)]
  {
  }

  /** A mute withdraws every permission until the given time, 366 days when
      none is given; an unmute grants them all from now on. */
  lemma RestrictFacts(e: Env, s: State, userId: int, unMute: bool, until: int)
    ensures var (t, res) := Restrict(e, s, userId, unMute, until);
      var c := t.calls[|s.calls|];
      t.calls == s.calls + [c] && c.RestrictMember? && c.userId == userId
      && (c.permissions == AllPermissions(true) <==> unMute)
      && (unMute ==> c.until == e.now)
      && (!unMute && until == 0 ==> c.until == e.now + DefaultRestrictSeconds)
      && (res.isSuccess <==> e.respond(|s.calls|).Ok?)
  {
    var t := Restrict(e, s, userId, unMute, until).0;
    assert t.calls[|s.calls|] == RestrictMember(s.ctx.chatId, userId, AllPermissions(unMute), RestrictUntil(e.now, unMute, until));
    if !unMute {
      assert AllPermissions(unMute).canSendMessages != AllPermissions(true).canSendMessages;
    }
  }

  /** A kick bans until now; it reports failure when the ban fails, and
      when a failed unban could not even be reported. */
  lemma KickFacts(e: Env, s: State, userId: int, unban: bool)
    ensures var (t, ok) := Kick(e, s, userId, unban);
      |t.calls| > |s.calls| && t.calls[|s.calls|] == BanMember(s.ctx.chatId, userId, e.now)
      && (e.respond(|s.calls|).Fail? ==> !ok && t.calls == s.calls + [BanMember(s.ctx.chatId, userId, e.now)])
      && (e.respond(|s.calls|).Ok? && !unban ==> ok)
      && (e.respond(|s.calls|).Ok? && unban && e.respond(|s.calls| + 1).Fail? && s.ctx.chat.None? ==> !ok)
  {
    var s1 := s.(calls := s.calls + [BanMember(s.ctx.chatId, userId, e.now)]);
    if e.respond(|s.calls|).Ok? && unban {
      var s2 := s1.(calls := s1.calls + [UnbanMember(s.ctx.chatId, userId)]);
      if e.respond(|s1.calls|).Fail? {
        SendExtends(e, s2, e.respond(|s1.calls|).message, NoMarkup, -1, -1, false, 0, false);
      }
      assert Kick(e, s, userId, unban).0.calls[..|s2.calls|] == s2.calls;
      assert s2.calls[|s.calls|] == BanMember(s.ctx.chatId, userId, e.now);
    }
  }

  /** The bare admin test is `CheckFromAdmin` without a user id. */
  lemma FromAdminWithoutUser(e: Env, s: State)
    ensures CheckFromAdmin(e, s, -1) == (s, IsFromAdmin(e, s.ctx))
  {
    assert s.(ctx := s.ctx) == s;
  }

  /** A scheduled kick and its step record point at each other. */
  lemma ScheduledStepNamesItsJob(e: Env, s: State, name: StepHistoryName)
    requires s.ctx.from.Some?
    ensures var t := ScheduleKickJob(e, s, name).state;
      var h := t.steps[|t.steps| - 1];
      |t.steps| == |s.steps| + 1 && |t.jobs| == |s.jobs| + 1 && h.jobId < |t.jobs|
      && t.jobs[h.jobId] == KickJob(h.chatId, h.userId, KickTimeOffsetSeconds)
      && h.name == name && h.status == NeedVerify
  {
  }

  /** The username check lets the member through unless all its exemptions
      fail, and a member it stops is muted first. */
  lemma UsernameCheckOutcome(e: Env, s: State)
    ensures var r := RunCheckUserUsername(e, s);
      var exempt := s.ctx.channelOrEditedPost.Some? || s.ctx.hasUsername || CheckPermission(e, s.ctx)
                    || !e.settingOf(s.ctx.chatId).enableWarnUsername;
      (r == Step(s, Returned(true)) <==> exempt)
      && (!exempt ==>
            (r.exit != Returned(true) && |r.state.calls| > |s.calls|
             && r.state.calls[|s.calls|]
                == RestrictMember(s.ctx.chatId, s.ctx.fromId, AllPermissions(false), e.now + KickTimeOffsetSeconds)))
  {
    var exempt := s.ctx.channelOrEditedPost.Some? || s.ctx.hasUsername || CheckPermission(e, s.ctx)
                  || !e.settingOf(s.ctx.chatId).enableWarnUsername;
    if !exempt {
      WarningMutesFirst(e, s, ChatMemberUsername);
    }
  }

  /** The profile-photo check, likewise. */
  lemma PhotoCheckOutcome(e: Env, s: State)
    ensures var r := RunCheckUserProfilePhoto(e, s);
      var exempt := s.ctx.callbackQuery.Some? || s.ctx.channelOrEditedPost.Some? || CheckPermission(e, s.ctx)
                    || e.hasProfilePhoto(s.ctx.chatId, s.ctx.fromId);
      (r == Step(s, Returned(true)) <==> exempt)
      && (!exempt ==>
            (r.exit != Returned(true) && |r.state.calls| > |s.calls|
             && r.state.calls[|s.calls|]
                == RestrictMember(s.ctx.chatId, s.ctx.fromId, AllPermissions(false), e.now + KickTimeOffsetSeconds)))
  {
    var exempt := s.ctx.callbackQuery.Some? || s.ctx.channelOrEditedPost.Some? || CheckPermission(e, s.ctx)
                  || e.hasProfilePhoto(s.ctx.chatId, s.ctx.fromId);
    if !exempt {
      WarningMutesFirst(e, s, ChatMemberPhoto);
    }
  }

  /** A warning step first mutes the member for the kick offset, and its
      requests only extend the log. */
  lemma WarningMutesFirst(e: Env, s: State, name: StepHistoryName)
    ensures var t := SendWarningStep(e, s, name).state;
      |t.calls| > |s.calls| && t.calls[..|s.calls|] == s.calls
      && t.calls[|s.calls|] == RestrictMember(s.ctx.chatId, s.ctx.fromId, AllPermissions(false), e.now + KickTimeOffsetSeconds)
  {
    WarningStepUnfolds(e, s, name);
    MuteThenSend(e, s, WarnText(s.ctx.fromNameLink, HumanizeStep(name)), name);
  }

  lemma WarningStepUnfolds(e: Env, s: State, name: StepHistoryName)
    ensures SendWarningStep(e, s, name) == ReplaceEarlierWarning(e, s.ctx, name,
      Send(e, Restrict(e, s, s.ctx.fromId, false, e.now + KickTimeOffsetSeconds).0,
           WarnText(s.ctx.fromNameLink, HumanizeStep(name)), VerifyMarkup, 0, -1, true, 0, false))
  {
  }

  lemma MuteThenSend(e: Env, s: State, text: string, name: StepHistoryName)
    ensures var s1 := Restrict(e, s, s.ctx.fromId, false, e.now + KickTimeOffsetSeconds).0;
      var t := ReplaceEarlierWarning(e, s.ctx, name, Send(e, s1, text, VerifyMarkup, 0, -1, true, 0, false)).state;
      |t.calls| > |s.calls| && t.calls[..|s.calls|] == s.calls
      && t.calls[|s.calls|] == RestrictMember(s.ctx.chatId, s.ctx.fromId, AllPermissions(false), e.now + KickTimeOffsetSeconds)
  {
    var s1 := Restrict(e, s, s.ctx.fromId, false, e.now + KickTimeOffsetSeconds).0;
    var r := Send(e, s1, text, VerifyMarkup, 0, -1, true, 0, false);
    SendExtends(e, s1, text, VerifyMarkup, 0, -1, true, 0, false);
    ReplacementExtends(e, s.ctx, name, r);
    var t := ReplaceEarlierWarning(e, s.ctx, name, r).state;
    PrefixOfPrefix(t.calls, r.state.calls, s1.calls);
    assert s1.calls == s.calls + [RestrictMember(s.ctx.chatId, s.ctx.fromId, AllPermissions(false), e.now + KickTimeOffsetSeconds)];
  }

  lemma ReplacementExtends(e: Env, c: Context, name: StepHistoryName, r: Step<Option<SentRef>>)
    ensures var t := ReplaceEarlierWarning(e, c, name, r).state;
      |r.state.calls| <= |t.calls| && t.calls[..|r.state.calls|] == r.state.calls
  {
    var earlier := FindStep(r.state.steps, c.chatId, c.fromId, name);
    if !r.exit.Raised? && earlier.Some? {
      DeleteFacts(e, r.state, earlier.value.lastWarnMessageId);
    }
  }

  lemma PrefixOfPrefix<T>(a: seq<T>, b: seq<T>, c: seq<T>)
    requires |c| <= |b| <= |a| && a[..|b|] == b && b[..|c|] == c
    ensures a[..|c|] == c
  {
    assert a[..|c|] == a[..|b|][..|c|];
  }

  /** The deletion at the end of a warning step: the earlier warning's id,
      which for an earlier step recorded without a sent message (-1) means
      the warning just sent. */
  lemma WarningDeletesEarlierWarning(e: Env, c: Context, name: StepHistoryName, r: Step<Option<SentRef>>, h: StepHistory)
    requires r.exit.Returned? && r.state.sentMessage.Some?
    requires FindStep(r.state.steps, c.chatId, c.fromId, name) == Some(h)
    ensures var t := ReplaceEarlierWarning(e, c, name, r).state;
      t.calls == r.state.calls + [DeleteMessage(r.state.ctx.chatId,
        if h.lastWarnMessageId == -1 then r.state.sentMessage.value.messageId else h.lastWarnMessageId)]
  {
  }

  // ------------------------------------------------------------ callbacks

  /** Banning and kicking modes, and unknown ones, do nothing. */
  lemma IdleModes(e: Env, s: State, updated: Option<SentRef>, a: CallbackAnswer, m: CallbackAnswerMode)
    requires m == BanMemberMode || m == KickMemberMode || m.UnknownMode?
    ensures RunMode(e, s, updated, a, m) == Step(s, Returned(updated))
  {
  }

  /** Every mode keeps the context and only extends the logs, except that a
      scheduled kick also records its job and step. */
  lemma ModeKeepsContext(e: Env, s: State, updated: Option<SentRef>, a: CallbackAnswer, m: CallbackAnswerMode)
    ensures var t := RunMode(e, s, updated, a, m).state;
      t.ctx == s.ctx && |s.calls| <= |t.calls| && t.calls[..|s.calls|] == s.calls
  {
    match m
    case SendMessageMode => SendExtends(e, s, a.text, a.markup, -1, -1, false, 0, false);
    case EditMessageMode =>
      if s.sentMessage.Some? { EditTargetsSentMessage(e, s, a.text, a.markup, true, 0, false); }
    case _ =>
  }

  /** Running modes keeps the context and only extends the request log. */
  lemma {:induction false} ModesKeepContext(e: Env, s: State, a: CallbackAnswer, modes: seq<CallbackAnswerMode>)
    ensures var t := RunModes(e, s, a, modes).state;
      t.ctx == s.ctx && |s.calls| <= |t.calls| && t.calls[..|s.calls|] == s.calls
    decreases |modes|
  {
    if |modes| > 0 {
      var prev := RunModes(e, s, a, modes[..|modes| - 1]);
      ModesKeepContext(e, s, a, modes[..|modes| - 1]);
      if !prev.exit.Raised? {
        ModeKeepsContext(e, prev.state, prev.exit.value, a, modes[|modes| - 1]);
        var t := RunModes(e, s, a, modes).state;
        assert t.calls[..|s.calls|] == t.calls[..|prev.state.calls|][..|s.calls|];
      }
    }
  }

  /** Once a mode throws, the modes after it do not run. */
  lemma {:induction false} ModesStopAtRaise(e: Env, s: State, a: CallbackAnswer, modes: seq<CallbackAnswerMode>,
                                            rest: seq<CallbackAnswerMode>)
    requires RunModes(e, s, a, modes).exit.Raised?
    ensures RunModes(e, s, a, modes + rest) == RunModes(e, s, a, modes)
    decreases |rest|
  {
    if |rest| == 0 {
      assert modes + rest == modes;
    } else {
      var all := modes + rest;
      assert all[..|all| - 1] == modes + rest[..|rest| - 1];
      ModesStopAtRaise(e, s, a, modes, rest[..|rest| - 1]);
    }
  }
}
