/** `TagCommand`: `/tag slug [buttons]` (or `/retag`) in reply to a message
    stores that message as the chat's tag `slug`, after a chain of checks
    that each end the command with a message of their own. The tag store
    behind `TagsService` is kept in memory. */
module TagCommand {
  import opened Wrappers
  import opened Text
  import opened TelegramTypes
  import opened UpdateContext
  import opened GatewaySpec
  import GatewayFacts
  import Gateway

  /** The saved tag: the columns `HandleAsync` fills in. `typeData` is only
      present when the replied message carries a file. */
  datatype TagRecord = TagRecord(
    chatId: int,
    fromId: int,
    tag: string,
    btnData: string,
    content: string,
    fileId: string,
    typeData: Option<string>
  )

  /** `IsExist`: a tag of that name is stored for the chat. */
  predicate HasTag(tags: seq<TagRecord>, chatId: int, tag: string) {
    exists i :: 0 <= i < |tags| && tags[i].chatId == chatId && tags[i].tag == tag
  }

  /** No chat has two tags of the same name. */
  predicate UniqueTags(tags: seq<TagRecord>) {
    forall i, j :: 0 <= i < j < |tags| ==> tags[i].chatId != tags[j].chatId || tags[i].tag != tags[j].tag
  }

  /** `DeleteTag`: the tags other than the chat's tag of that name, in order. */
  function DropTag(tags: seq<TagRecord>, chatId: int, tag: string): (r: seq<TagRecord>)
    ensures forall t :: t in r <==> t in tags && (t.chatId != chatId || t.tag != tag)
  {
    if |tags| == 0 then []
    else if tags[0].chatId == chatId && tags[0].tag == tag then DropTag(tags[1..], chatId, tag)
    else [tags[0]] + DropTag(tags[1..], chatId, tag)
  }

  /** Deleting tags keeps the chat's tag names unique. */
  lemma {:induction false} DropTagKeepsUnique(tags: seq<TagRecord>, chatId: int, tag: string)
    requires UniqueTags(tags)
    ensures UniqueTags(DropTag(tags, chatId, tag))
  {
    if |tags| > 0 {
      var tail := tags[1..];
      assert UniqueTags(tail) by {
        forall i, j | 0 <= i < j < |tail|
          ensures tail[i].chatId != tail[j].chatId || tail[i].tag != tail[j].tag
        {
          assert tail[i] == tags[i + 1] && tail[j] == tags[j + 1];
        }
      }
      DropTagKeepsUnique(tail, chatId, tag);
      if tags[0].chatId != chatId || tags[0].tag != tag {
        var rest := DropTag(tail, chatId, tag);
        var r := [tags[0]] + rest;
        forall i, j | 0 <= i < j < |r|
          ensures r[i].chatId != r[j].chatId || r[i].tag != r[j].tag
        {
          if i == 0 {
            assert r[j] in tail;
            var k :| 0 <= k < |tail| && tail[k] == r[j];
            assert tags[k + 1] == r[j];
          } else {
            assert r[i] == rest[i - 1] && r[j] == rest[j - 1];
          }
        }
      }
    }
  }

  /** The tag store. `refreshes` lists the chats whose tag cache was
      rebuilt, in order. */
  class TagsService {
    var tags: seq<TagRecord>
    var refreshes: seq<int>

    constructor()
      ensures tags == [] && refreshes == []
    {
      tags := [];
      refreshes := [];
    }

    function IsExist(chatId: int, tag: string): bool
      reads this
    {
      HasTag(tags, chatId, tag)
    }

    method DeleteTag(chatId: int, tag: string)
      modifies this`tags
      ensures tags == DropTag(old(tags), chatId, tag)
    {
      tags := DropTag(tags, chatId, tag);
    }

    method SaveTag(t: TagRecord)
      modifies this`tags
      ensures tags == old(tags) + [t]
    {
      tags := tags + [t];
    }

    method UpdateCache(chatId: int)
      modifies this`refreshes
      ensures refreshes == old(refreshes) + [chatId]
    {
      refreshes := refreshes + [chatId];
    }
  }

  // ------------------------------------------------------------ the texts

  const OnlyAdminText := "Hanya admin yang bisa membuat Tag"
  const TagHelpText := "\U{2139} Simpan tag ke Cloud Tags"
    + "\nContoh: <code>/tag tagnya [tombol|link.tombol]</code> - Reply pesan"
    + "\nPanjang tag minimal 3 karakter."
    + "\nTanda [ ] artinya tidak harus"
    + "\n"
    + "\n\U{1F4DD} <i>Jika untuk grup, di rekomendasikan membuat sebuah channel, "
    + "lalu link ke post di tautkan sebagai tombol.</i>"
  const ShortSlugText := "Slug Tag minimal 3 karakter"
  const PreparingText := "\U{1F4D6} Sedang mempersiapkan.."
  const DeletingText := "Sedang menghapus tag sebelumnya.."
  const DuplicateText := "\U{2705} Tag sudah ada. Silakan ganti Tag jika ingin isi konten berbeda"
  const SavingText := "\U{1F4DD} Menyimpan tag data.."

  function SavedText(slug: string): string {
    "\U{2705} Tag berhasil di simpan..\nTag: <code>#" + slug + "</code>\n\nKetik /tags untuk melihat semua Tag."
  }

  // ---------------------------------------------------------- the checks

  /** `isForceTag`: the command is `/retag`. */
  predicate IsForced(c: Context, botUsername: string) {
    Contains(GetCommand(c, botUsername, false, true), "/retag")
  }

  /** Where the checks of `HandleAsync` end: a refusal, one of the two
      dereferences of a missing object, a too short slug, a tag that exists
      already, or the record to store. */
  datatype Verdict =
    | NotAdmin
    | NoMessage
    | NoReply
    | NoSlug
    | ShortSlug
    | Duplicate(slug: string)
    | Store(slug: string, record: TagRecord)

  /** The characters of the slug, which `TrimStart(slug.ToCharArray())`
      strips off the front of the text. */
  function CharsOf(s: string): set<char> {
    set ch | ch in s
  }

  /** The record saved for a slug and the replied message. */
  function Record(c: Context, slug: string, text: string, rep: Message): (r: TagRecord)
    ensures r.tag == Trim(slug) && r.chatId == c.chatId && r.fromId == c.fromId
    ensures r.content == rep.text.GetOr(rep.caption.GetOr(""))
    ensures r.typeData.Some? <==> rep.fileId.Some? && rep.fileId.value != ""
    ensures r.typeData.Some? ==> r.fileId == rep.fileId.value && r.typeData.value == rep.messageType
    ensures r.typeData.None? ==> r.fileId == ""
  {
    var buttonData := Trim(TrimStartChars(text, CharsOf(slug)));
    var content := rep.text.GetOr(rep.caption.GetOr(""));
    if rep.fileId.Some? && rep.fileId.value != "" then
      TagRecord(c.chatId, c.fromId, Trim(slug), buttonData, content, rep.fileId.value, Some(rep.messageType))
    else
      TagRecord(c.chatId, c.fromId, Trim(slug), buttonData, content, "", None)
  }

  /** The tags the existence check sees: after `/retag` the chat's tag of
      the trimmed slug has been deleted. */
  function TagsBeforeCheck(c: Context, botUsername: string, slug: string, tags: seq<TagRecord>): seq<TagRecord> {
    if IsForced(c, botUsername) then DropTag(tags, c.chatId, Trim(slug)) else tags
  }

  /** The checks as written: the existence check looks for the untrimmed
      slug, while the record stores the trimmed one. `withoutCmd` is the
      bot's `GetTextWithoutCmd`. */
  function VerdictAsWritten(c: Context, isAdmin: bool, botUsername: string, withoutCmd: Option<string> -> string,
                            tags: seq<TagRecord>): Verdict
  {
    if !c.isFromSudo && !isAdmin then NotAdmin
    else if c.message.None? then NoMessage
    else if c.message.value.replyToMessage.None? then NoReply
    else
      var text := withoutCmd(c.message.value.text);
      var parts := Tokens(text);
      if |parts| == 0 then NoSlug
      else if |parts[0]| < 3 then ShortSlug
      else if HasTag(TagsBeforeCheck(c, botUsername, parts[0], tags), c.message.value.chat.id, parts[0]) then Duplicate(parts[0])
      else Store(parts[0], Record(c, parts[0], text, c.message.value.replyToMessage.value))
  }

  /** The checks with the existence check looking for the tag that is
      stored, the trimmed slug. */
  function CheckTag(c: Context, isAdmin: bool, botUsername: string, withoutCmd: Option<string> -> string,
                    tags: seq<TagRecord>): Verdict
  {
    if !c.isFromSudo && !isAdmin then NotAdmin
    else if c.message.None? then NoMessage
    else if c.message.value.replyToMessage.None? then NoReply
    else
      var text := withoutCmd(c.message.value.text);
      var parts := Tokens(text);
      if |parts| == 0 then NoSlug
      else if |parts[0]| < 3 then ShortSlug
      else if HasTag(TagsBeforeCheck(c, botUsername, parts[0], tags), c.message.value.chat.id, Trim(parts[0])) then Duplicate(parts[0])
      else Store(parts[0], Record(c, parts[0], text, c.message.value.replyToMessage.value))
  }

  // --------------------------------------------------------- the handler

  /** The service, the tag store and how the command left. */
  datatype TagRun = TagRun(state: State, tags: seq<TagRecord>, refreshes: seq<int>, exit: Exit<()>)

  function Replied(r: Step<Option<SentRef>>, tags: seq<TagRecord>, refreshes: seq<int>): TagRun {
    TagRun(r.state, tags, refreshes, Unit(r.exit))
  }

  /** `HandleAsync`. `isAdmin` is the answer of `IsAdminOrPrivateChat`. */
  function HandleTag(e: Env, s: State, u: Update, isAdmin: bool, withoutCmd: Option<string> -> string,
                     tags: seq<TagRecord>, refreshes: seq<int>): TagRun
  {
    var a := AddUpdateContext(e, s, u);
    if a.exit.Raised? then TagRun(a.state, tags, refreshes, Raised)
    else Checked(e, a.state, CheckTag(a.state.ctx, isAdmin, e.botUsername, withoutCmd, tags), tags, refreshes)
  }

  /** What the command does once the update is in place. */
  function Checked(e: Env, s: State, v: Verdict, tags: seq<TagRecord>, refreshes: seq<int>): TagRun {
    match v
    case NotAdmin => Replied(Send(e, s, OnlyAdminText, NoMarkup, -1, -1, false, 0, false), tags, refreshes)
    case NoMessage => TagRun(s, tags, refreshes, Raised)
    case NoReply => Replied(Send(e, s, TagHelpText, NoMarkup, -1, -1, false, 0, false), tags, refreshes)
    case NoSlug => TagRun(s, tags, refreshes, Raised)
    case ShortSlug => Replied(Edit(e, s, ShortSlugText, NoMarkup, true, 0, false), tags, refreshes)
    case Duplicate(slug) => Prepare(e, s, slug, None, tags, refreshes)
    case Store(slug, record) => Prepare(e, s, slug, Some(record), tags, refreshes)
  }

  /** The announcement, the deletion of `/retag`, and then the duplicate
      message or the save (`record` is `None` for a duplicate). */
  function Prepare(e: Env, s: State, slug: string, record: Option<TagRecord>, tags: seq<TagRecord>,
                   refreshes: seq<int>): TagRun
  {
    var r1 := Send(e, s, PreparingText, NoMarkup, -1, -1, false, 0, false);
    if r1.exit.Raised? then TagRun(r1.state, tags, refreshes, Raised)
    else
      var forced := IsForced(s.ctx, e.botUsername);
      var r2 := if forced then Edit(e, r1.state, DeletingText, NoMarkup, true, 0, false) else Step(r1.state, Returned(None));
      if r2.exit.Raised? then TagRun(r2.state, tags, refreshes, Raised)
      else
        var tags2 := if forced then DropTag(tags, s.ctx.chatId, Trim(slug)) else tags;
        Saved(e, r2.state, slug, record, tags2, refreshes, s.ctx.chatId)
  }

  /** After the announcement: the duplicate message, or the save, its two
      progress messages and the cache refresh of chat `chatId`. */
  function Saved(e: Env, s: State, slug: string, record: Option<TagRecord>, tags: seq<TagRecord>,
                 refreshes: seq<int>, chatId: int): TagRun
  {
    if record.None? then Replied(Edit(e, s, DuplicateText, NoMarkup, true, 0, false), tags, refreshes)
    else
      var r3 := Edit(e, s, SavingText, NoMarkup, true, 0, false);
      if r3.exit.Raised? then TagRun(r3.state, tags, refreshes, Raised)
      else
        var tags3 := tags + [record.value];
        var r4 := Edit(e, r3.state, SavedText(slug), NoMarkup, true, 0, false);
        if r4.exit.Raised? then TagRun(r4.state, tags3, refreshes, Raised)
        else TagRun(r4.state, tags3, refreshes + [chatId], Returned(()))
  }

  /** `HandleAsync`; every exception of a request or of a missing object
      ends the command. The one handler body is split along its own
      sections, each a method proved against the matching step function:
      `RunChecks` (the admin and reply checks), `CheckSlug` (the slug's
      length), `Finish` (the announcement and the `/retag` deletion), `Save`
      (the existence check) and `SaveRecord` (the save and the cache
      refresh). */
  method HandleAsync(ts: Gateway.TelegramService, store: TagsService, u: Update, isAdmin: bool,
                     withoutCmd: Option<string> -> string)
    returns (x: Exit<()>)
    modifies ts, store
    ensures var r := HandleTag(ts.env, old(ts.Model()), u, isAdmin, withoutCmd, old(store.tags), old(store.refreshes));
      ts.Model() == r.state && store.tags == r.tags && store.refreshes == r.refreshes && x == r.exit
  {
    var a := ts.AddUpdateContext(u);
    if a.Raised? {
      return Raised;
    }
    x := RunChecks(ts, store, isAdmin, withoutCmd);
  }

  /** `HandleAsync` once the update is in place. */
  method RunChecks(ts: Gateway.TelegramService, store: TagsService, isAdmin: bool, withoutCmd: Option<string> -> string)
    returns (x: Exit<()>)
    modifies ts, store
    ensures var v := CheckTag(old(ts.Model()).ctx, isAdmin, ts.env.botUsername, withoutCmd, old(store.tags));
      var r := Checked(ts.env, old(ts.Model()), v, old(store.tags), old(store.refreshes));
      ts.Model() == r.state && store.tags == r.tags && store.refreshes == r.refreshes && x == r.exit
  {
    ghost var v := CheckTag(ts.ctx, isAdmin, ts.env.botUsername, withoutCmd, store.tags);
    var msg := ts.ctx.message;
    if !ts.ctx.isFromSudo && !isAdmin {
      assert v == NotAdmin;
      var r := ts.SendTextMessage(OnlyAdminText, NoMarkup, -1, -1, false, 0, false);
      return Unit(r);
    }
    if msg.None? {
      assert v == NoMessage;
      return Raised;
    }
    if msg.value.replyToMessage.None? {
      assert v == NoReply;
      var r := ts.SendTextMessage(TagHelpText, NoMarkup, -1, -1, false, 0, false);
      return Unit(r);
    }
    x := CheckSlug(ts, store, isAdmin, withoutCmd);
  }

  /** The part of `HandleAsync` after the reply check: the slug is the first
      word of the text without the command, and must be three characters
      long. */
  method CheckSlug(ts: Gateway.TelegramService, store: TagsService, isAdmin: bool, withoutCmd: Option<string> -> string)
    returns (x: Exit<()>)
    requires ts.ctx.isFromSudo || isAdmin
    requires ts.ctx.message.Some? && ts.ctx.message.value.replyToMessage.Some?
    modifies ts, store
    ensures var v := CheckTag(old(ts.Model()).ctx, isAdmin, ts.env.botUsername, withoutCmd, old(store.tags));
      var r := Checked(ts.env, old(ts.Model()), v, old(store.tags), old(store.refreshes));
      ts.Model() == r.state && store.tags == r.tags && store.refreshes == r.refreshes && x == r.exit
  {
    ghost var v := CheckTag(ts.ctx, isAdmin, ts.env.botUsername, withoutCmd, store.tags);
    var msg := ts.ctx.message.value;
    var chatId := ts.ctx.chatId;
    var fromId := ts.ctx.fromId;
    var isForceTag := Contains(GetCommand(ts.ctx, ts.env.botUsername, false, true), "/retag");
    var msgText := withoutCmd(msg.text);
    var repMsg := msg.replyToMessage.value;
    var parts := Tokens(msgText);
    if |parts| == 0 {
      assert v == NoSlug;
      return Raised;
    }
    var slugTag := parts[0];
    var buttonData := Trim(TrimStartChars(msgText, CharsOf(slugTag)));
    if |slugTag| < 3 {
      assert v == ShortSlug;
      var r := ts.EditMessageText(ShortSlugText, NoMarkup, true, 0, false);
      return Unit(r);
    }
    assert v == (if HasTag(TagsBeforeCheck(ts.ctx, ts.env.botUsername, slugTag, store.tags), msg.chat.id, Trim(slugTag))
      then Duplicate(slugTag) else Store(slugTag, Record(ts.ctx, slugTag, msgText, repMsg)));
    x := Finish(ts, store, slugTag, msgText, buttonData, repMsg, chatId, fromId, msg.chat.id, isForceTag);
  }

  /** The part of `HandleAsync` after the checks on the text: the
      announcement, the deletion of `/retag`, the existence check and the
      save. */
  method Finish(ts: Gateway.TelegramService, store: TagsService, slugTag: string, msgText: string, buttonData: string, repMsg: Message,
                chatId: int, fromId: int, msgChatId: int, isForceTag: bool)
    returns (x: Exit<()>)
    requires chatId == ts.ctx.chatId && fromId == ts.ctx.fromId
    requires isForceTag == IsForced(ts.ctx, ts.env.botUsername)
    requires buttonData == Trim(TrimStartChars(msgText, CharsOf(slugTag)))
    modifies ts, store
    ensures var c := old(ts.Model()).ctx;
      var record := if HasTag(TagsBeforeCheck(c, ts.env.botUsername, slugTag, old(store.tags)), msgChatId, Trim(slugTag))
        then None else Some(Record(c, slugTag, msgText, repMsg));
      var r := Prepare(ts.env, old(ts.Model()), slugTag, record, old(store.tags), old(store.refreshes));
      ts.Model() == r.state && store.tags == r.tags && store.refreshes == r.refreshes && x == r.exit
  {
    ghost var s0 := ts.Model();
    ghost var tags0 := store.tags;
    var r1 := ts.SendTextMessage(PreparingText, NoMarkup, -1, -1, false, 0, false);
    if r1.Raised? {
      return Raised;
    }
    GatewayFacts.SendExtends(ts.env, s0, PreparingText, NoMarkup, -1, -1, false, 0, false);
    ghost var s1 := ts.Model();
    if isForceTag {
      var r2 := ts.EditMessageText(DeletingText, NoMarkup, true, 0, false);
      if r2.Raised? {
        return Raised;
      }
      store.DeleteTag(chatId, Trim(slugTag));
    }
    assert ts.Model().ctx == s0.ctx;
    assert store.tags == TagsBeforeCheck(s0.ctx, ts.env.botUsername, slugTag, tags0);
    assert ts.Model() == (if isForceTag then Edit(ts.env, s1, DeletingText, NoMarkup, true, 0, false) else Step(s1, Returned(None))).state;
    x := Save(ts, store, slugTag, msgText, buttonData, repMsg, chatId, fromId, msgChatId);
  }

  /** The existence check and the save. */
  method Save(ts: Gateway.TelegramService, store: TagsService, slugTag: string, msgText: string, buttonData: string, repMsg: Message,
              chatId: int, fromId: int, msgChatId: int)
    returns (x: Exit<()>)
    requires chatId == ts.ctx.chatId && fromId == ts.ctx.fromId
    requires buttonData == Trim(TrimStartChars(msgText, CharsOf(slugTag)))
    modifies ts, store
    ensures var record := if HasTag(old(store.tags), msgChatId, Trim(slugTag))
        then None else Some(Record(old(ts.Model()).ctx, slugTag, msgText, repMsg));
      var r := Saved(ts.env, old(ts.Model()), slugTag, record, old(store.tags), old(store.refreshes), chatId);
      ts.Model() == r.state && store.tags == r.tags && store.refreshes == r.refreshes && x == r.exit
  {
    var content := repMsg.text.GetOr(repMsg.caption.GetOr(""));
    if store.IsExist(msgChatId, Trim(slugTag)) {
      var r := ts.EditMessageText(DuplicateText, NoMarkup, true, 0, false);
      return Unit(r);
    }
    var data := TagRecord(chatId, fromId, Trim(slugTag), buttonData, content, "", None);
    if repMsg.fileId.Some? && repMsg.fileId.value != "" {
      data := data.(fileId := repMsg.fileId.value, typeData := Some(repMsg.messageType));
    }
    assert data == Record(ts.ctx, slugTag, msgText, repMsg);
    x := SaveRecord(ts, store, slugTag, data, chatId);
  }

  /** The save of `data`, between its two progress messages. */
  method SaveRecord(ts: Gateway.TelegramService, store: TagsService, slugTag: string, data: TagRecord, chatId: int)
    returns (x: Exit<()>)
    modifies ts, store
    ensures var r := Saved(ts.env, old(ts.Model()), slugTag, Some(data), old(store.tags), old(store.refreshes), chatId);
      ts.Model() == r.state && store.tags == r.tags && store.refreshes == r.refreshes && x == r.exit
  {
    var r3 := ts.EditMessageText(SavingText, NoMarkup, true, 0, false);
    if r3.Raised? {
      return Raised;
    }
    store.SaveTag(data);
    var r4 := ts.EditMessageText(SavedText(slugTag), NoMarkup, true, 0, false);
    if r4.Raised? {
      return Raised;
    }
    store.UpdateCache(chatId);
    return Returned(());
  }
}

/** What the tag command promises. */
module TagCommandFacts {
  import opened Wrappers
  import opened Text
  import opened TelegramTypes
  import opened UpdateContext
  import opened GatewaySpec
  import GatewayFacts
  import opened TagCommand

  /** A tag is stored only after every check passed: the sender is sudo or
      admin, the command replies to a message, the first word of its text
      has at least three characters, and (after the deletion of `/retag`)
      the chat has no tag of that name yet. */
  lemma StoredOnlyAfterEveryCheck(c: Context, isAdmin: bool, bot: string, withoutCmd: Option<string> -> string,
                                  tags: seq<TagRecord>)
    ensures CheckTag(c, isAdmin, bot, withoutCmd, tags).Store? <==>
      (c.isFromSudo || isAdmin) && c.message.Some? && c.message.value.replyToMessage.Some?
      && |Tokens(withoutCmd(c.message.value.text))| > 0
      && |Tokens(withoutCmd(c.message.value.text))[0]| >= 3
      && !HasTag(TagsBeforeCheck(c, bot, Tokens(withoutCmd(c.message.value.text))[0], tags),
                 c.message.value.chat.id, Trim(Tokens(withoutCmd(c.message.value.text))[0]))
    ensures CheckTag(c, isAdmin, bot, withoutCmd, tags).Store? ==>
      CheckTag(c, isAdmin, bot, withoutCmd, tags).slug == Tokens(withoutCmd(c.message.value.text))[0]
      && CheckTag(c, isAdmin, bot, withoutCmd, tags).record
         == Record(c, Tokens(withoutCmd(c.message.value.text))[0], withoutCmd(c.message.value.text),
                   c.message.value.replyToMessage.value)
  {
    var v := CheckTag(c, isAdmin, bot, withoutCmd, tags);
    if (c.isFromSudo || isAdmin) && c.message.Some? && c.message.value.replyToMessage.Some? {
      var text := withoutCmd(c.message.value.text);
      var parts := Tokens(text);
      if |parts| > 0 && |parts[0]| >= 3 {
        assert v == if HasTag(TagsBeforeCheck(c, bot, parts[0], tags), c.message.value.chat.id, Trim(parts[0]))
          then Duplicate(parts[0]) else Store(parts[0], Record(c, parts[0], text, c.message.value.replyToMessage.value));
      }
    }
  }

  /** The button text of a record is the command text with every leading
      character that occurs anywhere in the slug stripped off (a set of
      characters, not the slug as a prefix), then trimmed. */
  lemma ButtonDataSkipsSlugCharacters(c: Context, slug: string, text: string, rep: Message)
    ensures exists k :: (0 <= k <= |text| && (forall i :: 0 <= i < k ==> text[i] in slug)
                         && (k < |text| ==> text[k] !in slug) && Record(c, slug, text, rep).btnData == Trim(text[k..]))
  {
    var rest := TrimStartChars(text, CharsOf(slug));
    var k := |text| - |rest|;
    assert rest == text[k..];
    assert forall i :: 0 <= i < k ==> text[i] in CharsOf(slug);
    if k < |text| {
      assert text[k] == rest[0];
    }
  }

  /** The state once the update is in place. */
  function Started(e: Env, s: State, u: Update): State {
    AddUpdateContext(e, s, u).state
  }

  /** A sender who is neither sudo nor admin gets the refusal and nothing
      else: no tag is stored and no cache rebuilt. */
  lemma NonAdminOnlyRefused(e: Env, s: State, u: Update, isAdmin: bool, withoutCmd: Option<string> -> string,
                            tags: seq<TagRecord>, refreshes: seq<int>)
    requires AddUpdateContext(e, s, u).exit.Returned?
    requires !Started(e, s, u).ctx.isFromSudo && !isAdmin
    ensures var s1 := Started(e, s, u);
      var r := HandleTag(e, s, u, isAdmin, withoutCmd, tags, refreshes);
      r.tags == tags && r.refreshes == refreshes && |s1.calls| < |r.state.calls|
      && forall k :: |s1.calls| <= k < |r.state.calls| ==>
           r.state.calls[k].SendText? && r.state.calls[k].text == SendBody(e, s1, OnlyAdminText)
  {
    GatewayFacts.SendCarriesText(e, Started(e, s, u), OnlyAdminText, NoMarkup, -1, -1, false, 0, false);
  }

  /** A command that replies to nothing gets the help text and nothing
      else. */
  lemma NoReplyOnlyHelped(e: Env, s: State, u: Update, isAdmin: bool, withoutCmd: Option<string> -> string,
                          tags: seq<TagRecord>, refreshes: seq<int>)
    requires AddUpdateContext(e, s, u).exit.Returned?
    requires Started(e, s, u).ctx.isFromSudo || isAdmin
    requires Started(e, s, u).ctx.message.Some? && Started(e, s, u).ctx.message.value.replyToMessage.None?
    ensures var s1 := Started(e, s, u);
      var r := HandleTag(e, s, u, isAdmin, withoutCmd, tags, refreshes);
      r.tags == tags && r.refreshes == refreshes && |s1.calls| < |r.state.calls|
      && forall k :: |s1.calls| <= k < |r.state.calls| ==>
           r.state.calls[k].SendText? && r.state.calls[k].text == SendBody(e, s1, TagHelpText)
  {
    GatewayFacts.SendCarriesText(e, Started(e, s, u), TagHelpText, NoMarkup, -1, -1, false, 0, false);
  }

  /** Whatever the verdict, the command stores at most its record: unless
      the verdict is to store, every tag left was there before and no
      cache is rebuilt; a command that stores and runs to its end leaves
      the tags before the check plus the record, and rebuilds the chat's
      cache. */
  lemma StoresOnlyItsRecord(e: Env, s: State, v: Verdict, tags: seq<TagRecord>, refreshes: seq<int>)
    ensures var r := Checked(e, s, v, tags, refreshes);
      (!v.Store? ==> r.refreshes == refreshes && forall t :: t in r.tags ==> t in tags)
      && (v.Store? && r.exit.Returned? ==>
            r.tags == TagsBeforeCheck(s.ctx, e.botUsername, v.slug, tags) + [v.record]
            && r.refreshes == refreshes + [s.ctx.chatId])
  {
    if v.Duplicate? || v.Store? {
      PreparedTags(e, s, v.slug, if v.Store? then Some(v.record) else None, tags, refreshes);
    }
  }

  /** The tags after the handler are the tags before it, those without the
      forced tag, or those followed by the one record. */
  lemma PreparedTags(e: Env, s: State, slug: string, record: Option<TagRecord>, tags: seq<TagRecord>, refreshes: seq<int>)
    ensures var r := Prepare(e, s, slug, record, tags, refreshes);
      var tags2 := TagsBeforeCheck(s.ctx, e.botUsername, slug, tags);
      (r.tags == tags || r.tags == tags2 || (record.Some? && r.tags == tags2 + [record.value]))
      && (r.refreshes == refreshes || (record.Some? && r.refreshes == refreshes + [s.ctx.chatId]))
      && (record.None? ==> r.refreshes == refreshes && (r.tags == tags || r.tags == tags2))
      && (record.Some? && r.exit.Returned? ==> r.tags == tags2 + [record.value] && r.refreshes == refreshes + [s.ctx.chatId])
  {
    var r1 := Send(e, s, PreparingText, NoMarkup, -1, -1, false, 0, false);
    if r1.exit.Returned? {
      var forced := IsForced(s.ctx, e.botUsername);
      var r2 := if forced then Edit(e, r1.state, DeletingText, NoMarkup, true, 0, false) else Step(r1.state, Returned(None));
      if r2.exit.Returned? {
        SavedTags(e, r2.state, slug, record, TagsBeforeCheck(s.ctx, e.botUsername, slug, tags), refreshes, s.ctx.chatId);
      }
    }
  }

  lemma SavedTags(e: Env, s: State, slug: string, record: Option<TagRecord>, tags: seq<TagRecord>,
                  refreshes: seq<int>, chatId: int)
    ensures var r := Saved(e, s, slug, record, tags, refreshes, chatId);
      (record.None? ==> r.tags == tags && r.refreshes == refreshes)
      && (record.Some? ==> r.tags == tags || r.tags == tags + [record.value])
      && (record.Some? ==> r.refreshes == refreshes || r.refreshes == refreshes + [chatId])
      && (record.Some? && r.exit.Returned? ==> r.tags == tags + [record.value] && r.refreshes == refreshes + [chatId])
  {
  }

  /** With the existence check on the stored name, the command never gives
      a chat two tags of the same name (the message is in the chat the
      update names, as for every message update). */
  lemma KeepsTagsUnique(e: Env, s: State, c: Context, isAdmin: bool, withoutCmd: Option<string> -> string,
                        tags: seq<TagRecord>, refreshes: seq<int>)
    requires UniqueTags(tags)
    requires s.ctx == c && (c.message.Some? ==> c.message.value.chat.id == c.chatId)
    ensures UniqueTags(Checked(e, s, CheckTag(c, isAdmin, e.botUsername, withoutCmd, tags), tags, refreshes).tags)
  {
    var v := CheckTag(c, isAdmin, e.botUsername, withoutCmd, tags);
    if v.Duplicate? || v.Store? {
      var record := if v.Store? then Some(v.record) else None;
      PreparedTags(e, s, v.slug, record, tags, refreshes);
      var tags2 := TagsBeforeCheck(c, e.botUsername, v.slug, tags);
      if IsForced(c, e.botUsername) {
        DropTagKeepsUnique(tags, c.chatId, Trim(v.slug));
      }
      if v.Store? {
        AddKeepsUnique(tags2, v.record);
      }
    }
  }

  /** A record whose name its chat does not have yet keeps the tags unique. */
  lemma AddKeepsUnique(tags: seq<TagRecord>, record: TagRecord)
    requires UniqueTags(tags) && !HasTag(tags, record.chatId, record.tag)
    ensures UniqueTags(tags + [record])
  {
    var all := tags + [record];
    forall i, j | 0 <= i < j < |all| ensures all[i].chatId != all[j].chatId || all[i].tag != all[j].tag {
      if j == |all| - 1 {
        assert all[i] == tags[i];
      } else {
        assert all[i] == tags[i] && all[j] == tags[j];
      }
    }
  }

  /** As written, the existence check looks for the untrimmed slug: a slug
      that ends in white space passes it although its trimmed name, which
      the record stores, is the chat's tag already, and the chat ends up
      with two tags of that name. */
  lemma AsWrittenDuplicatesTrimmedSlug(c: Context, isAdmin: bool, bot: string, withoutCmd: Option<string> -> string,
                                       tags: seq<TagRecord>)
    requires (c.isFromSudo || isAdmin) && c.message.Some? && c.message.value.replyToMessage.Some?
    requires !IsForced(c, bot) && c.message.value.chat.id == c.chatId
    requires |Tokens(withoutCmd(c.message.value.text))| > 0
    requires |Tokens(withoutCmd(c.message.value.text))[0]| >= 3
    requires HasTag(tags, c.chatId, Trim(Tokens(withoutCmd(c.message.value.text))[0]))
    requires !HasTag(tags, c.chatId, Tokens(withoutCmd(c.message.value.text))[0])
    ensures VerdictAsWritten(c, isAdmin, bot, withoutCmd, tags).Store?
    ensures !UniqueTags(tags + [VerdictAsWritten(c, isAdmin, bot, withoutCmd, tags).record])
    ensures CheckTag(c, isAdmin, bot, withoutCmd, tags).Duplicate?
  {
    var slug := Tokens(withoutCmd(c.message.value.text))[0];
    var v := VerdictAsWritten(c, isAdmin, bot, withoutCmd, tags);
    var i :| 0 <= i < |tags| && tags[i].chatId == c.chatId && tags[i].tag == Trim(slug);
    var all := tags + [v.record];
    assert all[i] == tags[i] && all[|tags|] == v.record;
  }

  /** Such a slug: `/tag abc<TAB> link` has the first word `abc<TAB>`. */
  lemma TabEndedSlugIsFirstWord()
    ensures Tokens("abc\t link") == ["abc\t", "link"]
  {
    var slug := "abc\t";
    var link := "link";
    assert ' ' !in slug && ' ' !in link;
    assert "abc\t link" == slug + [' '] + link;
    SplitAfter(slug, link, ' ');
    SplitNoSeparator(link, ' ');
    assert NonEmpty([link]) == [link] by {
      assert [link][1..] == [];
    }
    assert NonEmpty([slug, link]) == [slug] + NonEmpty([link]) by {
      assert [slug, link][1..] == [link];
    }
  }

  /** ... and the trimmed name `abc`. */
  lemma TabEndedSlugTrimmed()
    ensures Trim("abc\t") == "abc" && |"abc\t"| >= 3
  {
    var slug := "abc\t";
    assert !IsWhiteSpace(slug[0]);
    assert TrimStartSpace(slug) == slug;
    assert IsWhiteSpace(slug[3]);
    assert slug[..3] == "abc";
    assert !IsWhiteSpace("abc"[2]);
    assert TrimEndSpace("abc") == "abc";
  }
}
