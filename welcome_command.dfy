/** `WelcomeCommand`: `/welcome` shows an admin the chat's welcome
    configuration, as one message: the stored welcome text (or an
    explanation of the default one) and the raw button text, sent with the
    stored media when there is one. */
module WelcomeCommand {
  import opened Wrappers
  import opened Text
  import opened TelegramTypes
  import opened UpdateContext
  import opened GatewaySpec
  import Settings
  import Gateway

  /** The default welcome template, with its placeholders. */
  const DefaultWelcome := "Hai {allNewMember}\nSelamat datang di kontrakan {chatTitle}\nKamu adalah anggota ke-{memberCount}"

  const NoConfigText := "Tidak ada konfigurasi pesan welcome, pesan default akan di terapkan"
    + "\n\n<code>" + DefaultWelcome + "</code>"
    + "\n\nUntuk bantuan silakan ketik /help"
    + "\nBantuan pesan Welcome ke Bantuan > Grup > Welcome"

  function Header(chatTitle: string): string {
    "\U{2699} Konfigurasi Welcome di <b>" + chatTitle + "</b>\n\n"
  }

  function MessagePart(welcomeMessage: string): string {
    if welcomeMessage == "" then NoConfigText else "<code>" + welcomeMessage + "</code>"
  }

  function ButtonPart(welcomeButton: string): string {
    if welcomeButton == "" then "" else "\n\n<b>Raw Button:</b>\n<code>" + welcomeButton + "</code>"
  }

  /** The text the command sends. */
  function WelcomeText(chatTitle: string, st: Settings.ChatSetting): string {
    Header(chatTitle) + MessagePart(st.welcomeMessage) + ButtonPart(st.welcomeButton)
  }

  /** The keyboard: empty, or the stored buttons parsed in two columns. */
  function WelcomeKeyboard(st: Settings.ChatSetting): Markup {
    if st.welcomeButton == "" then Inline([]) else ParsedButtons(st.welcomeButton, 2)
  }

  /** `HandleAsync`: only an admin or the chat's anonymous admin gets the
      configuration; the chat's settings are `settingOf` of the service's
      environment. */
  function HandleWelcome(e: Env, s: State, u: Update): Step<()> {
    var a := AddUpdateContext(e, s, u);
    if a.exit.Raised? then a
    else
      var c := a.state.ctx;
      match CheckFromAdminOrAnonymous(e, c)
      case Raised => Step(a.state, Raised)
      case Returned(allowed) =>
        if !allowed then a else Shown(e, a.state)
  }

  /** The configuration of the context's chat, sent with its media or as
      text. */
  function Shown(e: Env, s: State): Step<()> {
    var st := e.settingOf(s.ctx.chatId);
    var text := WelcomeText(s.ctx.chatTitle, st);
    var r := if st.welcomeMediaType != Settings.UnknownMedia
      then SendMedia(e, s, st.welcomeMedia, st.welcomeMediaType, text, WelcomeKeyboard(st), -1)
      else Send(e, s, text, WelcomeKeyboard(st), -1, -1, false, 0, false);
    Step(r.state, Unit(r.exit))
  }

  /** `HandleAsync`, building the text and the keyboard step by step. */
  method HandleAsync(ts: Gateway.TelegramService, u: Update) returns (x: Exit<()>)
    modifies ts
    ensures var r := HandleWelcome(ts.env, old(ts.Model()), u); ts.Model() == r.state && x == r.exit
  {
    var a := ts.AddUpdateContext(u);
    if a.Raised? {
      return Raised;
    }
    var allowed := CheckFromAdminOrAnonymous(ts.env, ts.ctx);
    if allowed.Raised? {
      return Raised;
    }
    if !allowed.value {
      return Returned(());
    }
    x := ShowConfig(ts);
  }

  /** The part of `HandleAsync` after the admin check. */
  method ShowConfig(ts: Gateway.TelegramService) returns (x: Exit<()>)
    modifies ts
    ensures var r := Shown(ts.env, old(ts.Model())); ts.Model() == r.state && x == r.exit
  {
    var settings := ts.env.settingOf(ts.ctx.chatId);
    var sendText, keyboard := Compose(ts.ctx.chatTitle, settings);
    if settings.welcomeMediaType != Settings.UnknownMedia {
      var r := ts.SendMedia(settings.welcomeMedia, settings.welcomeMediaType, sendText, keyboard, -1);
      return Unit(r);
    } else {
      var r := ts.SendTextMessage(sendText, keyboard, -1, -1, false, 0, false);
      return Unit(r);
    }
  }

  /** The text and the keyboard, built piece by piece. */
  method Compose(chatTitle: string, settings: Settings.ChatSetting) returns (sendText: string, keyboard: Markup)
    ensures sendText == WelcomeText(chatTitle, settings) && keyboard == WelcomeKeyboard(settings)
  {
    sendText := Header(chatTitle);
    if settings.welcomeMessage == "" {
      sendText := sendText + NoConfigText;
    } else {
      sendText := sendText + "<code>" + settings.welcomeMessage + "</code>";
    }
    keyboard := Inline([]);
    if settings.welcomeButton != "" {
      keyboard := ParsedButtons(settings.welcomeButton, 2);
      sendText := sendText + "\n\n<b>Raw Button:</b>\n<code>" + settings.welcomeButton + "</code>";
    }
  }
}

/** What the welcome command promises. */
module WelcomeCommandFacts {
  import opened Wrappers
  import opened Text
  import opened TelegramTypes
  import opened UpdateContext
  import opened GatewaySpec
  import GatewayFacts
  import Settings
  import opened WelcomeCommand

  /** The text always opens with the header naming the chat, followed by
      the default-template explanation when no welcome message is stored and
      by the stored message inside `<code>` otherwise. */
  lemma TextOpensWithHeader(chatTitle: string, st: Settings.ChatSetting)
    ensures StartsWith(WelcomeText(chatTitle, st), Header(chatTitle))
    ensures st.welcomeMessage == "" ==> StartsWith(WelcomeText(chatTitle, st), Header(chatTitle) + NoConfigText)
    ensures st.welcomeMessage != "" ==>
      StartsWith(WelcomeText(chatTitle, st), Header(chatTitle) + "<code>" + st.welcomeMessage + "</code>")
  {
    var t := WelcomeText(chatTitle, st);
    var h := Header(chatTitle);
    var m := MessagePart(st.welcomeMessage);
    assert t == (h + m) + ButtonPart(st.welcomeButton);
    assert t[..|h + m|] == h + m;
    assert t[..|h|] == (h + m)[..|h|] == h;
  }

  /** A stored button text replaces the empty keyboard by the parsed one
      and closes the text with the raw button block. */
  lemma ButtonShownWhenStored(chatTitle: string, st: Settings.ChatSetting)
    ensures WelcomeKeyboard(st) == ParsedButtons(st.welcomeButton, 2) <==> st.welcomeButton != ""
    ensures st.welcomeButton == "" ==> WelcomeKeyboard(st) == Inline([])
    ensures st.welcomeButton != "" ==>
      var block := "\n\n<b>Raw Button:</b>\n<code>" + st.welcomeButton + "</code>";
      var t := WelcomeText(chatTitle, st);
      |block| <= |t| && t[|t| - |block|..] == block
  {
  }

  /** Distinct stored welcome messages give distinct texts: the text shows
      the stored message as it is. */
  lemma TextShowsStoredMessage(chatTitle: string, st1: Settings.ChatSetting, st2: Settings.ChatSetting)
    requires st1.welcomeMessage != "" && st2.welcomeMessage != "" && st1.welcomeButton == st2.welcomeButton
    requires WelcomeText(chatTitle, st1) == WelcomeText(chatTitle, st2)
    ensures st1.welcomeMessage == st2.welcomeMessage
  {
    var h := Header(chatTitle) + "<code>";
    var m1 := st1.welcomeMessage;
    var m2 := st2.welcomeMessage;
    var tail := "</code>" + ButtonPart(st1.welcomeButton);
    assert WelcomeText(chatTitle, st1) == h + m1 + tail;
    assert WelcomeText(chatTitle, st2) == h + m2 + tail;
    assert |m1| == |m2|;
    assert m1 == (h + m1 + tail)[|h|..|h| + |m1|];
    assert m2 == (h + m2 + tail)[|h|..|h| + |m2|];
  }

  /** A sender who is neither admin nor the chat's anonymous admin gets
      nothing: the command ends with the update in place and no request. */
  lemma OthersGetNothing(e: Env, s: State, u: Update)
    requires AddUpdateContext(e, s, u).exit.Returned?
    requires CheckFromAdminOrAnonymous(e, AddUpdateContext(e, s, u).state.ctx) == Returned(false)
    ensures HandleWelcome(e, s, u) == AddUpdateContext(e, s, u)
    ensures HandleWelcome(e, s, u).state.calls == s.calls
  {
  }

  /** Exactly one kind of send: with stored media one media request (at
      most), of that media's type and with the text as its caption, and no
      text message; without media only the text, once or retried once. */
  lemma OneSend(e: Env, s: State, u: Update)
    requires AddUpdateContext(e, s, u).exit.Returned?
    requires CheckFromAdminOrAnonymous(e, AddUpdateContext(e, s, u).state.ctx) == Returned(true)
    ensures var s1 := AddUpdateContext(e, s, u).state;
      var st := e.settingOf(s1.ctx.chatId);
      var r := HandleWelcome(e, s, u);
      var text := WelcomeText(s1.ctx.chatTitle, st);
      |s1.calls| <= |r.state.calls| && r.state.calls[..|s1.calls|] == s1.calls
      && (st.welcomeMediaType != Settings.UnknownMedia ==>
            |r.state.calls| <= |s1.calls| + 1
            && forall k :: |s1.calls| <= k < |r.state.calls| ==>
                 !r.state.calls[k].SendText? && r.state.calls[k].file == st.welcomeMedia
                 && (r.state.calls[k].SendPhoto? <==> st.welcomeMediaType == Settings.Photo)
                 && (r.state.calls[k].SendVideo? <==> st.welcomeMediaType == Settings.Video)
                 && StartsWith(r.state.calls[k].caption, text))
      && (st.welcomeMediaType == Settings.UnknownMedia ==>
            |s1.calls| < |r.state.calls|
            && forall k :: |s1.calls| <= k < |r.state.calls| ==>
                 r.state.calls[k].SendText? && r.state.calls[k].text == SendBody(e, s1, text)
                 && r.state.calls[k].markup == WelcomeKeyboard(st))
  {
    var s1 := AddUpdateContext(e, s, u).state;
    assert HandleWelcome(e, s, u) == Shown(e, s1);
    if e.settingOf(s1.ctx.chatId).welcomeMediaType == Settings.UnknownMedia {
      ShownAsText(e, s1);
    } else {
      ShownWithMedia(e, s1);
    }
  }

  /** With stored media: one media request at most, of that media's type,
      captioned with the text. */
  lemma ShownWithMedia(e: Env, s: State)
    requires e.settingOf(s.ctx.chatId).welcomeMediaType != Settings.UnknownMedia
    ensures var st := e.settingOf(s.ctx.chatId);
      var r := Shown(e, s);
      var text := WelcomeText(s.ctx.chatTitle, st);
      |s.calls| <= |r.state.calls| <= |s.calls| + 1 && r.state.calls[..|s.calls|] == s.calls
      && forall k :: |s.calls| <= k < |r.state.calls| ==>
           !r.state.calls[k].SendText? && r.state.calls[k].file == st.welcomeMedia
           && (r.state.calls[k].SendPhoto? <==> st.welcomeMediaType == Settings.Photo)
           && (r.state.calls[k].SendVideo? <==> st.welcomeMediaType == Settings.Video)
           && StartsWith(r.state.calls[k].caption, text)
  {
    var st := e.settingOf(s.ctx.chatId);
    var text := WelcomeText(s.ctx.chatTitle, st);
    if s.ctx.message.Some? {
      var annotated := text + Timing(s.timeInit, e.delay(s.ctx.message.value.date));
      assert annotated[..|text|] == text;
    }
  }

  /** Without media: the text, with the stored keyboard, once or retried. */
  lemma ShownAsText(e: Env, s: State)
    requires e.settingOf(s.ctx.chatId).welcomeMediaType == Settings.UnknownMedia
    ensures var st := e.settingOf(s.ctx.chatId);
      var r := Shown(e, s);
      var text := WelcomeText(s.ctx.chatTitle, st);
      |s.calls| <= |r.state.calls| && r.state.calls[..|s.calls|] == s.calls
      && (s.ctx.chat.Some? ==> |s.calls| < |r.state.calls|)
      && forall k :: |s.calls| <= k < |r.state.calls| ==>
           r.state.calls[k].SendText? && r.state.calls[k].text == SendBody(e, s, text)
           && r.state.calls[k].markup == WelcomeKeyboard(st)
  {
    var st := e.settingOf(s.ctx.chatId);
    var text := WelcomeText(s.ctx.chatTitle, st);
    TextOpensWithHeader(s.ctx.chatTitle, st);
    GatewayFacts.SendExtends(e, s, text, WelcomeKeyboard(st), -1, -1, false, 0, false);
    if s.ctx.chat.Some? {
      GatewayFacts.SendCarriesText(e, s, text, WelcomeKeyboard(st), -1, -1, false, 0, false);
    }
  }
}
