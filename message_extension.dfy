/** `TelegramServiceMessageExtension`: sending, editing and album sending
    that record the messages for later deletion, the word-filter scan, the
    first-message spam check and the bulk deletion of a member's messages. */
module MessageExtension {
  import opened Wrappers
  import opened Text
  import opened TelegramTypes
  import opened UpdateContext
  import opened GatewaySpec
  import opened Gateway
  import GatewayFacts

  /** `MessageResponseDto`: what a handler wants sent, and whether and when
      the result (and the message it answers) is to be deleted. */
  datatype MessageResponse = MessageResponse(
    messageText: string,
    replyMarkup: Markup,
    replyToMessageId: int,
    disableWebPreview: bool,
    scheduleDeleteAt: int,
    includeSenderForDelete: bool,
    listAlbum: seq<AlbumItem>
  )

  // --------------------------------------------------- history bookkeeping

  /** The sender's row (when asked) and then the sent message's row. */
  function SaveResponseRows(e: Env, s: State, flag: MessageFlag, deleteAt: int, includeSender: bool): Step<()> {
    var r := if includeSender then SaveSenderMessageToHistory(e, s, flag, deleteAt) else Step(s, Returned(()));
    if r.exit.Raised? then r else SaveSentMessageToHistory(e, r.state, flag, deleteAt)
  }

  /** `SendMessageTextAsync`. */
  function SendResponse(e: Env, s: State, d: MessageResponse): Step<Option<SentRef>> {
    var r := Send(e, s, d.messageText, d.replyMarkup, d.replyToMessageId, -1, d.disableWebPreview, 0, false);
    if r.exit.Raised? || d.scheduleDeleteAt == 0 then r
    else
      var h := SaveResponseRows(e, r.state, CommandFlag(e, r.state.ctx), d.scheduleDeleteAt, d.includeSenderForDelete);
      Step(h.state, if h.exit.Raised? then Raised else r.exit)
  }

  /** The history without the rows of one message. */
  function DropMessageRows(rows: seq<HistoryRow>, chatId: int, messageId: int): (r: seq<HistoryRow>)
    ensures forall x :: x in r <==> x in rows && !(x.chatId == chatId && x.messageId == messageId)
  {
    if |rows| == 0 then []
    else if rows[0].chatId == chatId && rows[0].messageId == messageId then DropMessageRows(rows[1..], chatId, messageId)
    else [rows[0]] + DropMessageRows(rows[1..], chatId, messageId)
  }

  /** `EditMessageTextAsync` of the extension: the edited message's old rows
      are dropped before the new ones are recorded. */
  function EditResponse(e: Env, s: State, d: MessageResponse): Step<Option<SentRef>> {
    var r := Edit(e, s, d.messageText, d.replyMarkup, d.disableWebPreview, 0, false);
    if r.exit.Raised? || d.scheduleDeleteAt == 0 then r
    else if r.exit.value.None? then Step(r.state, Raised)
    else
      var edited := r.exit.value.value;
      var s1 := r.state.(history := DropMessageRows(r.state.history, edited.chatId, edited.messageId));
      var h := SaveResponseRows(e, s1, CommandFlag(e, s1.ctx), d.scheduleDeleteAt, d.includeSenderForDelete);
      Step(h.state, if h.exit.Raised? then Raised else r.exit)
  }

  /** One history row per message of an album, in order. */
  function AlbumRows(c: Context, flag: MessageFlag, deleteAt: int, sent: seq<SentRef>): (r: seq<HistoryRow>)
    ensures |r| == |sent|
    ensures forall i :: 0 <= i < |sent| ==> r[i] == HistoryRow(flag, c.fromId, c.chatId, sent[i].messageId, deleteAt)
  {
    if |sent| == 0 then []
    else AlbumRows(c, flag, deleteAt, sent[..|sent| - 1]) + [HistoryRow(flag, c.fromId, c.chatId, sent[|sent| - 1].messageId, deleteAt)]
  }

  /** `SendMediaGroupAsync` of the extension as written: with the sender
      included, every album message gets a second row in place of one for
      the sender's message. */
  function SendAlbumResponseAsWritten(e: Env, s: State, d: MessageResponse): Step<RequestResult> {
    var (s1, res) := GatewaySpec.SendMediaGroup(e, s, d.listAlbum);
    if d.scheduleDeleteAt == 0 then Step(s1, Returned(res))
    else if res.sentMessages.None? then Step(s1, Raised)
    else
      var flag := CommandFlag(e, s1.ctx);
      var rows := AlbumRowsTwice(s1.ctx, flag, d.scheduleDeleteAt, res.sentMessages.value, d.includeSenderForDelete);
      Step(s1.(history := s1.history + rows), Returned(res))
  }

  /** The rows as written: each album message's row, twice over when the
      sender is included. */
  function AlbumRowsTwice(c: Context, flag: MessageFlag, deleteAt: int, sent: seq<SentRef>, twice: bool): (r: seq<HistoryRow>)
    ensures |r| == (if twice then 2 else 1) * |sent|
    ensures twice ==> forall k :: 0 <= k < |sent| ==>
      r[2 * k] == HistoryRow(flag, c.fromId, c.chatId, sent[k].messageId, deleteAt) && r[2 * k + 1] == r[2 * k]
    ensures !twice ==> forall k :: 0 <= k < |sent| ==> r[k] == HistoryRow(flag, c.fromId, c.chatId, sent[k].messageId, deleteAt)
  {
    if |sent| == 0 then []
    else
      var row := HistoryRow(flag, c.fromId, c.chatId, sent[|sent| - 1].messageId, deleteAt);
      AlbumRowsTwice(c, flag, deleteAt, sent[..|sent| - 1], twice) + (if twice then [row, row] else [row])
  }

  /** `SendMediaGroupAsync` of the extension with the sender's message
      recorded once, as `SendMessageTextAsync` does, then one row per album
      message. */
  function SendAlbumResponse(e: Env, s: State, d: MessageResponse): Step<RequestResult> {
    var (s1, res) := GatewaySpec.SendMediaGroup(e, s, d.listAlbum);
    if d.scheduleDeleteAt == 0 then Step(s1, Returned(res))
    else if res.sentMessages.None? then Step(s1, Raised)
    else
      var flag := CommandFlag(e, s1.ctx);
      var r := if d.includeSenderForDelete then SaveSenderMessageToHistory(e, s1, flag, d.scheduleDeleteAt) else Step(s1, Returned(()));
      if r.exit.Raised? then Step(r.state, Raised)
      else Step(r.state.(history := r.state.history + AlbumRows(s1.ctx, flag, d.scheduleDeleteAt, res.sentMessages.value)), Returned(res))
  }

  // ------------------------------------------------------------ the scan

  /** The text a scan looks at: the message text, or its caption when it
      has no text. */
  function ScanText(c: Context): Option<string> {
    if c.messageOrEditedText.Some? then c.messageOrEditedText else c.messageOrEditedCaption
  }

  /** A sudoer editing the word list is not scanned. */
  predicate IsKataCommand(text: string) {
    StartsWith(text, "/dkata") || StartsWith(text, "/delkata") || StartsWith(text, "/kata")
  }

  /** The decision of `ScanMessageAsync`: the message to delete, if any.
      `globalIgnored` and `mustDelete` (the word filter's verdict) are the
      services the scan consults. */
  function ScanDecision(e: Env, c: Context, globalIgnored: bool, mustDelete: string -> bool): (r: Option<int>)
    ensures r.Some? ==> c.messageOrEdited.Some? && r.value == c.messageOrEdited.value.messageId
  {
    if globalIgnored || c.messageOrEdited.None? || !e.settingOf(c.chatId).enableWordFilterGroupWide then None
    else if CheckFromAdminOrAnonymous(e, c) != Returned(false) then None
    else
      var text := ScanText(c);
      if text.None? || text.value == "" then None
      else if c.isFromSudo && IsKataCommand(text.value) then None
      else if !mustDelete(text.value) then None
      else Some(c.messageOrEdited.value.messageId)
  }

  method ScanMessage(ts: TelegramService, globalIgnored: bool, mustDelete: string -> bool) returns (deleted: bool)
    modifies ts
    ensures var d := ScanDecision(ts.env, old(ts.ctx), globalIgnored, mustDelete);
      deleted == d.Some?
      && ts.Model() == (if d.Some? then Delete(ts.env, old(ts.Model()), d.value) else old(ts.Model()))
  {
    if globalIgnored {
      return false;
    }
    var message := ts.ctx.messageOrEdited;
    if message.None? {
      return false;
    }
    if !ts.env.settingOf(ts.ctx.chatId).enableWordFilterGroupWide {
      return false;
    }
    var privileged := CheckFromAdminOrAnonymous(ts.env, ts.ctx);
    if privileged != Returned(false) {
      // an administrator, the chat itself, or the exception of an
      // anonymous sender without its chat: all end the scan with false
      return false;
    }
    var text := ScanText(ts.ctx);
    if text.None? || text.value == "" {
      return false;
    }
    if ts.ctx.isFromSudo && IsKataCommand(text.value) {
      return false;
    }
    if !mustDelete(text.value) {
      return false;
    }
    ts.Delete(message.value.messageId);
    return true;
  }

  // ---------------------------------------------- first-message spam check

  /** The alert `CheckUpdateHistoryAsync` sends: who it is about, the
      buttons to ban or clear them, and its deletion a day later. */
  datatype SpamAlert = SpamAlert(fromId: int, fullName: string, mentionAdmins: string, markup: Markup,
                                 deleteAt: int, flag: MessageFlag)

  function SpamButtons(fromId: int): Markup {
    Inline([[Button("Ya, ini Spam!", "gban add " + IntToString(fromId)),
             Button("Ini bukan Spam", "gban del " + IntToString(fromId))]])
  }

  /** The entities of the current message, or of its caption. */
  function MessageEntities(c: Context): Option<seq<EntityType>> {
    if c.messageOrEdited.None? then None
    else if c.messageOrEdited.value.entities.Some? then c.messageOrEdited.value.entities
    else c.messageOrEdited.value.captionEntities
  }

  function CountLinks(es: seq<EntityType>): nat {
    if |es| == 0 then 0 else (if es[0] == Mention || es[0] == Url then 1 else 0) + CountLinks(es[1..])
  }

  /** The guard chain of `CheckUpdateHistoryAsync`: a member's first
      message carrying a mention or link, in a chat that allows the check,
      raises an alert. `recentUpdates` is the number of stored updates of
      this chat and sender. */
  function SpamAlertOf(e: Env, c: Context, isPrivateGroup: bool, isChannel: bool, globalIgnored: bool,
                       recentUpdates: nat, mentionAdmins: string): (r: Option<SpamAlert>)
    ensures r.Some? ==> r.value.markup == SpamButtons(c.fromId) && r.value.deleteAt == e.now + 86400
                        && r.value.flag == SpamDetection && r.value.fromId == c.fromId
  {
    if isPrivateGroup || isChannel || globalIgnored then None
    else if e.settingOf(c.chatId).enablePrivacyMode then None
    else
      var entities := MessageEntities(c);
      if entities.None? then None
      else if CountLinks(entities.value) == 0 || recentUpdates > 0 then None
      else Some(SpamAlert(c.fromId, FullNameOf(c.from), mentionAdmins, SpamButtons(c.fromId), e.now + 86400, SpamDetection))
  }

  /** At least one mention or link is counted exactly when one is there. */
  lemma {:induction false} CountLinksPositive(es: seq<EntityType>)
    ensures CountLinks(es) > 0 <==> exists i :: 0 <= i < |es| && (es[i] == Mention || es[i] == Url)
  {
    if |es| > 0 {
      CountLinksPositive(es[1..]);
      if CountLinks(es[1..]) > 0 {
        var i :| 0 <= i < |es[1..]| && (es[1..][i] == Mention || es[1..][i] == Url);
        assert es[i + 1] == es[1..][i];
      }
      if exists i :: 0 <= i < |es| && (es[i] == Mention || es[i] == Url) {
        var i :| 0 <= i < |es| && (es[i] == Mention || es[i] == Url);
        if i > 0 { assert es[1..][i - 1] == es[i]; }
      }
    }
  }

  /** The alert is raised exactly when every condition of the check holds. */
  lemma SpamAlertExactly(e: Env, c: Context, isPrivateGroup: bool, isChannel: bool, globalIgnored: bool,
                         recentUpdates: nat, mentionAdmins: string)
    ensures SpamAlertOf(e, c, isPrivateGroup, isChannel, globalIgnored, recentUpdates, mentionAdmins).Some?
      <==> !isPrivateGroup && !isChannel && !globalIgnored && !e.settingOf(c.chatId).enablePrivacyMode
           && MessageEntities(c).Some? && recentUpdates == 0
           && exists i :: 0 <= i < |MessageEntities(c).value|
                && (MessageEntities(c).value[i] == Mention || MessageEntities(c).value[i] == Url)
  {
    if MessageEntities(c).Some? {
      CountLinksPositive(MessageEntities(c).value);
    }
  }

  /** The alert's text: the heading, the member's id and name, the
      question, and the mention of the chat's admins (the HTML builder's
      tags written out). */
  function AlertText(a: SpamAlert): (t: string)
    ensures |t| > 0
  {
    "<b>Anti-Spam detection Beta</b>\n<b>UserId: </b><code>" + IntToString(a.fromId) + "</code>\n"
    + "<b>Name: </b><code>" + a.fullName + "</code>\n"
    + "Telah mengirimkan link atau mention untuk pesan pertamanya. Apakah ini Spam?" + a.mentionAdmins
  }

  /** `CheckUpdateHistoryAsync`: false when the guard chain raises no
      alert; otherwise the alert is sent, the delivered message is recorded
      for deletion a day later under the spam-detection flag, and the result
      is true. */
  function SpamCheck(e: Env, s: State, isPrivateGroup: bool, isChannel: bool, globalIgnored: bool,
                     recentUpdates: nat, mentionAdmins: string): Step<bool>
  {
    var a := SpamAlertOf(e, s.ctx, isPrivateGroup, isChannel, globalIgnored, recentUpdates, mentionAdmins);
    if a.None? then Step(s, Returned(false))
    else
      var r := Send(e, s, AlertText(a.value), a.value.markup, -1, -1, false, 0, false);
      if r.exit.Raised? then Step(r.state, Raised)
      else if r.exit.value.None? then Step(r.state, Returned(true))
      else Step(SaveMessageToHistory(e, r.state, r.exit.value.value.messageId, a.value.flag, a.value.deleteAt), Returned(true))
  }

  /** Without an alert the check answers false and does nothing else; with
      one it never answers false. */
  lemma NoAlertNoRequest(e: Env, s: State, isPrivateGroup: bool, isChannel: bool, globalIgnored: bool,
                         recentUpdates: nat, mentionAdmins: string)
    ensures var r := SpamCheck(e, s, isPrivateGroup, isChannel, globalIgnored, recentUpdates, mentionAdmins);
      (r.exit == Returned(false) <==>
         SpamAlertOf(e, s.ctx, isPrivateGroup, isChannel, globalIgnored, recentUpdates, mentionAdmins).None?)
      && (r.exit == Returned(false) ==> r == Step(s, Returned(false)))
  {
  }

  /** An alert is one message (or its single retry) to the chat, carrying
      the alert's text and the two buttons for the sender. A delivered alert
      answers true and adds exactly one history row: the alert's own,
      flagged as spam detection and deleted a day later. */
  lemma SpamCheckSends(e: Env, s: State, isPrivateGroup: bool, isChannel: bool, globalIgnored: bool,
                       recentUpdates: nat, mentionAdmins: string)
    requires SpamAlertOf(e, s.ctx, isPrivateGroup, isChannel, globalIgnored, recentUpdates, mentionAdmins).Some?
    requires s.ctx.chat.Some?
    ensures var a := SpamAlertOf(e, s.ctx, isPrivateGroup, isChannel, globalIgnored, recentUpdates, mentionAdmins).value;
      var r := SpamCheck(e, s, isPrivateGroup, isChannel, globalIgnored, recentUpdates, mentionAdmins);
      |s.calls| < |r.state.calls| <= |s.calls| + 2 && r.state.calls[..|s.calls|] == s.calls
      && (forall k :: |s.calls| <= k < |r.state.calls| ==>
            r.state.calls[k].SendText? && r.state.calls[k].text == SendBody(e, s, AlertText(a))
            && r.state.calls[k].markup == SpamButtons(s.ctx.fromId))
      && (e.respond(|s.calls|).Ok? ==>
            r.exit == Returned(true)
            && r.state.history == s.history
                 + [HistoryRow(SpamDetection, s.ctx.fromId, s.ctx.chatId, e.respond(|s.calls|).id, e.now + 86400)])
  {
    var a := SpamAlertOf(e, s.ctx, isPrivateGroup, isChannel, globalIgnored, recentUpdates, mentionAdmins).value;
    GatewayFacts.SendCarriesText(e, s, AlertText(a), a.markup, -1, -1, false, 0, false);
    if e.respond(|s.calls|).Ok? {
      GatewayFacts.SendRecordsDelivered(e, s, AlertText(a), a.markup, -1, -1, false, 0, false);
    }
  }

  // ------------------------------------------------------- bulk deletion

  /** The deletions of `DeleteMessageManyAsync`, one after another. */
  function DeleteAll(e: Env, s: State, ids: seq<int>): State
    decreases |ids|
  {
    if |ids| == 0 then s else Delete(e, DeleteAll(e, s, ids[..|ids| - 1]), ids[|ids| - 1])
  }

  /** The member whose messages are deleted. */
  function DeleteManyUser(c: Context, customUserId: int): int {
    if customUserId == -1 then c.fromId else customUserId
  }

  /** Every listed message gets exactly one deletion request, in order. */
  lemma {:induction false} DeleteAllRequests(e: Env, s: State, ids: seq<int>)
    requires forall i :: 0 <= i < |ids| ==> ids[i] != -1
    ensures var t := DeleteAll(e, s, ids);
      t == s.(calls := t.calls) && |t.calls| == |s.calls| + |ids| && t.calls[..|s.calls|] == s.calls
      && forall i :: 0 <= i < |ids| ==> t.calls[|s.calls| + i] == DeleteMessage(s.ctx.chatId, ids[i])
    decreases |ids|
  {
    if |ids| > 0 {
      var front := ids[..|ids| - 1];
      DeleteAllRequests(e, s, front);
      var t0 := DeleteAll(e, s, front);
      GatewayFacts.DeleteFacts(e, t0, ids[|ids| - 1]);
      var t := DeleteAll(e, s, ids);
      assert t.calls == t0.calls + [DeleteMessage(s.ctx.chatId, ids[|ids| - 1])];
      assert t.calls[..|s.calls|] == t0.calls[..|s.calls|];
      forall i | 0 <= i < |ids|
        ensures t.calls[|s.calls| + i] == DeleteMessage(s.ctx.chatId, ids[i])
      {
        if i < |ids| - 1 {
          assert front[i] == ids[i];
        }
      }
    }
  }

  /** `DeleteMessageManyAsync`: list the member's messages up to the current
      one (`messagesOf(chat, user, last)`) and delete each. */
  method DeleteMessageMany(ts: TelegramService, customUserId: int, messagesOf: (int, int, int) -> seq<int>)
    returns (x: Exit<()>)
    modifies ts`calls
    ensures old(ts.ctx.anyMessage).None? ==> x.Raised? && ts.Model() == old(ts.Model())
    ensures old(ts.ctx.anyMessage).Some? ==>
      (x.Returned?
       && ts.Model() == DeleteAll(ts.env, old(ts.Model()),
            messagesOf(old(ts.ctx.chatId), DeleteManyUser(old(ts.ctx), customUserId), old(ts.ctx.anyMessage).value.messageId)))
  {
    var chatId := ts.ctx.chatId;
    var userId := DeleteManyUser(ts.ctx, customUserId);
    if ts.ctx.anyMessage.None? {
      return Raised;
    }
    var ids := messagesOf(chatId, userId, ts.ctx.anyMessage.value.messageId);
    ghost var s0 := ts.Model();
    var i := 0;
    while i < |ids|
      invariant 0 <= i <= |ids|
      invariant ts.Model() == DeleteAll(ts.env, s0, ids[..i])
    {
      assert ids[..i + 1][..i] == ids[..i];
      ts.Delete(ids[i]);
      i := i + 1;
    }
    assert ids[..i] == ids;
    return Returned(());
  }

  // ------------------------------------------------------------ methods

  method CheckUpdateHistory(ts: TelegramService, isPrivateGroup: bool, isChannel: bool, globalIgnored: bool,
                            recentUpdates: nat, mentionAdmins: string) returns (x: Exit<bool>)
    modifies ts
    ensures var r := SpamCheck(ts.env, old(ts.Model()), isPrivateGroup, isChannel, globalIgnored, recentUpdates, mentionAdmins);
      ts.Model() == r.state && x == r.exit
  {
    var alert := SpamAlertOf(ts.env, ts.ctx, isPrivateGroup, isChannel, globalIgnored, recentUpdates, mentionAdmins);
    if alert.None? {
      return Returned(false);
    }
    var sent := ts.SendTextMessage(AlertText(alert.value), alert.value.markup, -1, -1, false, 0, false);
    if sent.Raised? {
      return Raised;
    }
    if sent.value.Some? {
      ts.SaveMessageToHistory(sent.value.value.messageId, alert.value.flag, alert.value.deleteAt);
    }
    return Returned(true);
  }

  method SendMessageText(ts: TelegramService, d: MessageResponse) returns (x: Exit<Option<SentRef>>)
    modifies ts
    ensures var r := SendResponse(ts.env, old(ts.Model()), d); ts.Model() == r.state && x == r.exit
  {
    x := ts.SendTextMessage(d.messageText, d.replyMarkup, d.replyToMessageId, -1, d.disableWebPreview, 0, false);
    if x.Raised? || d.scheduleDeleteAt == 0 {
      return;
    }
    var h := SaveRows(ts, CommandFlag(ts.env, ts.ctx), d.scheduleDeleteAt, d.includeSenderForDelete);
    if h.Raised? {
      x := Raised;
    }
  }

  method SaveRows(ts: TelegramService, flag: MessageFlag, deleteAt: int, includeSender: bool) returns (x: Exit<()>)
    modifies ts`history
    ensures var r := SaveResponseRows(ts.env, old(ts.Model()), flag, deleteAt, includeSender);
      ts.Model() == r.state && x == r.exit
  {
    if includeSender {
      x := ts.SaveSenderMessageToHistory(flag, deleteAt);
      if x.Raised? {
        return;
      }
    }
    x := ts.SaveSentMessageToHistory(flag, deleteAt);
  }

  method EditMessageText(ts: TelegramService, d: MessageResponse) returns (x: Exit<Option<SentRef>>)
    modifies ts
    ensures var r := EditResponse(ts.env, old(ts.Model()), d); ts.Model() == r.state && x == r.exit
  {
    x := ts.EditMessageText(d.messageText, d.replyMarkup, d.disableWebPreview, 0, false);
    if x.Raised? || d.scheduleDeleteAt == 0 {
      return;
    }
    if x.value.None? {
      x := Raised;
      return;
    }
    var edited := x.value.value;
    ts.history := DropMessageRows(ts.history, edited.chatId, edited.messageId);
    var h := SaveRows(ts, CommandFlag(ts.env, ts.ctx), d.scheduleDeleteAt, d.includeSenderForDelete);
    if h.Raised? {
      x := Raised;
    }
  }

  method SendMediaGroup(ts: TelegramService, d: MessageResponse) returns (x: Exit<RequestResult>)
    modifies ts
    ensures var r := SendAlbumResponse(ts.env, old(ts.Model()), d); ts.Model() == r.state && x == r.exit
  {
    var res := ts.SendMediaGroup(d.listAlbum);
    ghost var s1 := ts.Model();
    if d.scheduleDeleteAt == 0 {
      return Returned(res);
    }
    if res.sentMessages.None? {
      return Raised;
    }
    var flag := CommandFlag(ts.env, ts.ctx);
    if d.includeSenderForDelete {
      var h := ts.SaveSenderMessageToHistory(flag, d.scheduleDeleteAt);
      if h.Raised? {
        return Raised;
      }
    }
    var sent := res.sentMessages.value;
    ghost var s2 := ts.Model();
    var i := 0;
    while i < |sent|
      invariant 0 <= i <= |sent|
      invariant ts.Model() == s2.(history := s2.history + AlbumRows(s1.ctx, flag, d.scheduleDeleteAt, sent[..i]))
    {
      assert sent[..i + 1][..i] == sent[..i];
      ts.SaveMessageToHistory(sent[i].messageId, flag, d.scheduleDeleteAt);
      i := i + 1;
    }
    assert sent[..i] == sent;
    return Returned(res);
  }

  // ------------------------------------------------------------ facts

  /** A text response records nothing without a deletion time; with one it
      records the sender's message (when asked) and then the sent one. */
  lemma ResponseRows(e: Env, s: State, d: MessageResponse)
    requires s.ctx.chat.Some? && d.messageText != "" && e.respond(|s.calls|).Ok?
    requires d.includeSenderForDelete ==> s.ctx.messageOrEdited.Some?
    ensures var r := SendResponse(e, s, d);
      var flag := CommandFlag(e, s.ctx);
      var sent := e.respond(|s.calls|).id;
      r.exit.Returned? && r.exit.value.Some? && r.exit.value.value.messageId == sent
      && r.state.history == s.history
           + (if d.scheduleDeleteAt == 0 || !d.includeSenderForDelete then []
              else [HistoryRow(flag, s.ctx.fromId, s.ctx.chatId, s.ctx.messageOrEdited.value.messageId, d.scheduleDeleteAt)])
           + (if d.scheduleDeleteAt == 0 then []
              else [HistoryRow(flag, s.ctx.fromId, s.ctx.chatId, sent, d.scheduleDeleteAt)])
  {
    GatewayFacts.SendRecordsDelivered(e, s, d.messageText, d.replyMarkup, d.replyToMessageId, -1, d.disableWebPreview, 0, false);
    GatewayFacts.SendExtends(e, s, d.messageText, d.replyMarkup, d.replyToMessageId, -1, d.disableWebPreview, 0, false);
  }

  /** An edited response replaces the edited message's rows by the new
      ones. */
  lemma EditResponseReplacesRows(e: Env, s: State, d: MessageResponse)
    requires s.sentMessage.Some? && e.respond(|s.calls|).Ok? && d.scheduleDeleteAt != 0 && !d.includeSenderForDelete
    ensures var r := EditResponse(e, s, d);
      var id := e.respond(|s.calls|).id;
      r.exit == Returned(Some(SentRef(s.ctx.chatId, id)))
      && r.state.history == DropMessageRows(s.history, s.ctx.chatId, id)
           + [HistoryRow(CommandFlag(e, s.ctx), s.ctx.fromId, s.ctx.chatId, id, d.scheduleDeleteAt)]
  {
    GatewayFacts.EditTargetsSentMessage(e, s, d.messageText, d.replyMarkup, d.disableWebPreview, 0, false);
  }

  /** The scan deletes exactly when none of its exemptions applies. */
  lemma ScanDeletesExactly(e: Env, c: Context, globalIgnored: bool, mustDelete: string -> bool)
    ensures ScanDecision(e, c, globalIgnored, mustDelete).Some? <==>
      !globalIgnored && c.messageOrEdited.Some? && e.settingOf(c.chatId).enableWordFilterGroupWide
      && CheckFromAdminOrAnonymous(e, c) == Returned(false)
      && ScanText(c).Some? && ScanText(c).value != ""
      && !(c.isFromSudo && IsKataCommand(ScanText(c).value))
      && mustDelete(ScanText(c).value)
  {
  }

  /** An administrator's message is never deleted, nor one the anonymous
      administrator posts for this chat (or without a sender chat, which
      throws and ends the scan), nor one of a sudoer editing the word list. */
  lemma ScanSparesPrivileged(e: Env, c: Context, globalIgnored: bool, mustDelete: string -> bool)
    requires IsFromAdmin(e, c)
             || (c.fromId == AnonymousAdminId && (c.senderChat.None? || c.senderChat.value.id == c.chatId))
             || (c.isFromSudo && ScanText(c).Some? && StartsWith(ScanText(c).value, "/kata"))
    ensures ScanDecision(e, c, globalIgnored, mustDelete).None?
  {
  }

  // ------------------------------------------------------------ findings

  /** As written, an album sent with its sender included records each
      album message twice and the sender's message not at all (unless it is
      itself part of the album); corrected, the sender's message once and
      each album message once. */
  lemma AlbumSenderRows(e: Env, s: State, d: MessageResponse)
    requires d.scheduleDeleteAt != 0 && d.includeSenderForDelete && e.respond(|s.calls|).Ok?
    requires s.ctx.messageOrEdited.Some?
    ensures var ids := e.groupIds(|s.calls|);
      var w := SendAlbumResponseAsWritten(e, s, d).state;
      var c := SendAlbumResponse(e, s, d).state;
      |w.history| == |s.history| + 2 * |ids| && |c.history| == |s.history| + 1 + |ids|
      && c.history[|s.history|].messageId == s.ctx.messageOrEdited.value.messageId
      && (forall i :: |s.history| <= i < |w.history| ==> w.history[i].messageId in ids)
  {
    var ids := e.groupIds(|s.calls|);
    var (s1, res) := GatewaySpec.SendMediaGroup(e, s, d.listAlbum);
    var sent := res.sentMessages.value;
    assert AlbumIds(sent) == ids;
    var flag := CommandFlag(e, s1.ctx);
    AlbumRowsTwiceIds(s1.ctx, flag, d.scheduleDeleteAt, sent, true);
    var rows := AlbumRowsTwice(s1.ctx, flag, d.scheduleDeleteAt, sent, true);
    var w := SendAlbumResponseAsWritten(e, s, d).state;
    assert w.history == s.history + rows;
    forall i | |s.history| <= i < |w.history|
      ensures w.history[i].messageId in ids
    {
      assert 0 <= i - |s.history| < |rows| && w.history[i] == rows[i - |s.history|];
    }
  }

  /** The ids of the sent album messages. */
  function AlbumIds(sent: seq<SentRef>): (r: seq<int>)
    ensures |r| == |sent| && forall i :: 0 <= i < |sent| ==> r[i] == sent[i].messageId
  {
    if |sent| == 0 then [] else [sent[0].messageId] + AlbumIds(sent[1..])
  }

  lemma AlbumRowsTwiceIds(c: Context, flag: MessageFlag, deleteAt: int, sent: seq<SentRef>, twice: bool)
    ensures forall k :: 0 <= k < |AlbumRowsTwice(c, flag, deleteAt, sent, twice)| ==>
      AlbumRowsTwice(c, flag, deleteAt, sent, twice)[k].messageId in AlbumIds(sent)
  {
    var r := AlbumRowsTwice(c, flag, deleteAt, sent, twice);
    var ids := AlbumIds(sent);
    if twice {
      PairedIds(r, ids);
    } else {
      forall k | 0 <= k < |r|
        ensures r[k].messageId in ids
      {
        assert r[k].messageId == ids[k];
      }
    }
  }

  /** Rows that come in pairs, the k-th pair carrying the k-th id, carry
      only those ids. */
  lemma PairedIds(r: seq<HistoryRow>, ids: seq<int>)
    requires |r| == 2 * |ids|
    requires forall k :: 0 <= k < |ids| ==> r[2 * k].messageId == ids[k] && r[2 * k + 1] == r[2 * k]
    ensures forall k :: 0 <= k < |r| ==> r[k].messageId in ids
  {
    forall k | 0 <= k < |r|
      ensures r[k].messageId in ids
    {
      var j := k / 2;
      assert 2 * j <= k < 2 * j + 2 && 0 <= j < |ids|;
      assert r[2 * j].messageId == ids[j];
      if k != 2 * j {
        assert r[2 * j + 1] == r[2 * j];
      }
    }
  }
}
