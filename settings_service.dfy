/** `SettingsService`: the `group_settings` table (one row of columns per chat)
    behind a cache of typed `ChatSetting` values keyed by the reduced chat id,
    and the toggle buttons the settings menu is built from. */
module Settings {
  import opened Wrappers
  import opened Text

  // ------------------------------------------------------------ table rows

  /** One stored cell. `NullCell` is SQL `NULL`. */
  datatype Cell = IntCell(i: int) | BoolCell(b: bool) | TextCell(s: string) | NullCell

  /** A table row or an update payload: column name to cell. */
  type Row = map<string, Cell>

  /** `cell.ToString()`: numbers in decimal, booleans as .NET prints them,
      `NULL` as the empty text. */
  function CellText(c: Cell): string {
    match c
    case IntCell(i) => IntToString(i)
    case BoolCell(b) => if b then "True" else "False"
    case TextCell(s) => s
    case NullCell => ""
  }

  /** The chat a row belongs to, when its `chat_id` is a number. */
  function RowChat(r: Row): Option<int> {
    if "chat_id" in r && r["chat_id"].IntCell? then Some(r["chat_id"].i) else None
  }

  /** The index of the first row of `chatId` (`FirstOrDefault`). */
  function FirstIndex(rows: seq<Row>, chatId: int): (r: Option<nat>)
    ensures r.Some? ==> r.value < |rows| && RowChat(rows[r.value]) == Some(chatId)
    ensures r.Some? ==> forall j :: 0 <= j < r.value ==> RowChat(rows[j]) != Some(chatId)
    ensures r.None? <==> forall j :: 0 <= j < |rows| ==> RowChat(rows[j]) != Some(chatId)
  {
    if |rows| == 0 then None
    else if RowChat(rows[0]) == Some(chatId) then Some(0)
    else
      var k := FirstIndex(rows[1..], chatId);
      if k.None? then None else Some(k.value + 1)
  }

  // ------------------------------------------------------- typed settings

  datatype MediaType = UnknownMedia | Document | LocalDocument | Photo | Video

  /** The typed view of a row that the handlers read. */
  datatype ChatSetting = ChatSetting(
    enableWarnUsername: bool,
    enableWordFilterGroupWide: bool,
    enablePrivacyMode: bool,
    enableHumanVerification: bool,
    eventLogChatId: int,
    welcomeMessage: string,
    welcomeButton: string,
    welcomeMedia: string,
    welcomeMediaType: MediaType
  )

  /** `new ChatSetting()`: every toggle off, no welcome, no log chat. */
  const DefaultSetting := ChatSetting(false, false, false, false, 0, "", "", "", UnknownMedia)

  function BoolColumn(r: Row, col: string): bool {
    col in r && r[col] == BoolCell(true)
  }

  function IntColumn(r: Row, col: string): int {
    if col in r && r[col].IntCell? then r[col].i else 0
  }

  function TextColumn(r: Row, col: string): string {
    if col in r && r[col].TextCell? then r[col].s else ""
  }

  function MediaColumn(r: Row, col: string): MediaType {
    match TextColumn(r, col)
    case "Document" => Document
    case "LocalDocument" => LocalDocument
    case "Photo" => Photo
    case "Video" => Video
    case _ => UnknownMedia
  }

  /** The row mapped onto `ChatSetting`, column by snake-case column name. */
  function ChatSettingOf(r: Row): ChatSetting {
    ChatSetting(
      BoolColumn(r, "enable_warn_username"),
      BoolColumn(r, "enable_word_filter_group_wide"),
      BoolColumn(r, "enable_privacy_mode"),
      BoolColumn(r, "enable_human_verification"),
      IntColumn(r, "event_log_chat_id"),
      TextColumn(r, "welcome_message"),
      TextColumn(r, "welcome_button"),
      TextColumn(r, "welcome_media"),
      MediaColumn(r, "welcome_media_type"))
  }

  // -------------------------------------------------------------- buttons

  datatype CallBackButton = CallBackButton(text: string, data: string)

  /** The toggle columns of the settings menu, in menu order. */
  const ToggleColumns: seq<string> := [
    "enable_anti_malfiles", "enable_fed_cas_ban", "enable_fed_es2_ban", "enable_fed_spamwatch",
    "enable_find_tags", "enable_human_verification", "enable_reply_notification",
    "enable_warn_username", "enable_welcome_message", "enable_word_filter_global",
    "enable_zizi_mata"
  ]

  const OnMark := '\U{2705}'
  const OffMark := '\U{1F6AB}'

  /** The button for one toggle column: the callback data names the column
      when the toggle is on and its `disable_` twin when it is off (what a
      press switches to, read by the settings callback), optionally followed
      by the chat id; the caption shows a check mark or a stop sign in place
      of `enable` and the words of the column name in title case. */
  function SettingButton(col: string, on: bool, appendChatId: bool, chatId: int): CallBackButton {
    var data := if on then col else Replace(col, "enable", "disable");
    var caption := Replace(col, "enable", [if on then OnMark else OffMark]);
    var text := Replace(Replace(caption, "enable_", ""), "_", " ");
    var tail := if appendChatId then " " + IntToString(chatId) else "";
    CallBackButton(TitleCase(text), "setting " + data + tail)
  }

  /** `s.Replace("_", " ")` keeps a head that is not an underscore. */
  lemma ReplaceUnderscoreKeepsHead(s: string)
    requires |s| > 0 && s[0] != '_'
    ensures var t := Replace(s, "_", " "); |t| > 0 && t[0] == s[0]
  {
    assert !StartsWith(s, "_");
  }

  /** The caption of a toggle column starts with the mark of its state, and
      the data records the state: it starts with `setting enable_` exactly
      when the toggle is on. */
  lemma {:induction false} SettingButtonShowsState(rest: string, on: bool, appendChatId: bool, chatId: int)
    ensures var b := SettingButton("enable_" + rest, on, appendChatId, chatId);
      && |b.text| > 0 && b.text[0] == (if on then OnMark else OffMark)
      && (StartsWith(b.data, "setting enable_") <==> on)
      && (!on ==> StartsWith(b.data, "setting disable"))
  {
    var col := "enable_" + rest;
    var mark := [if on then OnMark else OffMark];
    assert StartsWith(col, "enable");
    var caption := Replace(col, "enable", mark);
    assert |caption| > 0 && caption[0] == mark[0];
    ReplaceRemovesAll(col, "enable", mark);
    if Contains(caption, "enable_") {
      assert "enable_" == "enable" + "_";
      ContainsLonger(caption, "enable", "_");
    }
    ReplaceAbsent(caption, "enable_", "");
    ReplaceUnderscoreKeepsHead(caption);
    var b := SettingButton(col, on, appendChatId, chatId);
    var data := if on then col else Replace(col, "enable", "disable");
    var tail := if appendChatId then " " + IntToString(chatId) else "";
    assert b.data == "setting " + data + tail;
    if on {
      assert b.data[..15] == "setting " + col[..7];
    } else {
      assert StartsWith(data, "disable");
      assert b.data[..15] == "setting " + data[..7];
      assert b.data[8] == 'd';
    }
  }

  /** The printed cell of a column; a missing column prints empty. */
  function CellTextAt(r: Row, col: string): string {
    if col in r then CellText(r[col]) else ""
  }

  lemma ToggleColumnsAreToggles()
    ensures forall i :: 0 <= i < |ToggleColumns| ==> |ToggleColumns[i]| >= 7 && ToggleColumns[i][..7] == "enable_"
  {
  }

  /** `GetCacheKey`: `setting-` and the reduced chat id. */
  function CacheKey(reducedId: int): string {
    "setting-" + IntToString(reducedId)
  }

  /** Two chats share a cache entry exactly when their reduced ids agree. */
  lemma CacheKeyInjective(a: int, b: int)
    ensures CacheKey(a) == CacheKey(b) <==> a == b
  {
    IntToStringInjective(a, b);
    if CacheKey(a) == CacheKey(b) {
      assert CacheKey(a)[8..] == IntToString(a);
      assert CacheKey(b)[8..] == IntToString(b);
    }
  }

  // -------------------------------------------------------------- service

  /** No two rows of the table belong to the same chat. */
  predicate OneRowPerChat(rows: seq<Row>) {
    forall i, j :: 0 <= i < j < |rows| && RowChat(rows[i]).Some? ==> RowChat(rows[i]) != RowChat(rows[j])
  }

  lemma FirstIndexIs(rows: seq<Row>, chatId: int, k: nat)
    requires k < |rows| && RowChat(rows[k]) == Some(chatId)
    requires forall j :: 0 <= j < k ==> RowChat(rows[j]) != Some(chatId)
    ensures FirstIndex(rows, chatId) == Some(k)
  {
    assert RowChat(rows[k]) == Some(chatId);
  }

  /** The first row of `chatId` (`FirstOrDefault`). */
  function FirstRow(rows: seq<Row>, chatId: int): (r: Option<Row>)
    ensures r.Some? <==> exists j :: 0 <= j < |rows| && RowChat(rows[j]) == Some(chatId)
    ensures r.Some? ==> r.value in rows && RowChat(r.value) == Some(chatId)
  {
    var k := FirstIndex(rows, chatId);
    if k.Some? then Some(rows[k.value]) else None
  }

  /** Appending the first row of a chat makes it that chat's row and leaves
      every other chat's row alone. */
  lemma AppendRow(rows: seq<Row>, data: Row, chatId: int)
    requires OneRowPerChat(rows) && FirstRow(rows, chatId).None? && RowChat(data) == Some(chatId)
    ensures OneRowPerChat(rows + [data])
    ensures FirstRow(rows + [data], chatId) == Some(data)
    ensures forall other :: other != chatId ==> FirstRow(rows + [data], other) == FirstRow(rows, other)
  {
    var rows2 := rows + [data];
    FirstIndexIs(rows2, chatId, |rows|);
    forall other | other != chatId ensures FirstRow(rows2, other) == FirstRow(rows, other) {
      var f := FirstIndex(rows, other);
      if f.Some? {
        FirstIndexIs(rows2, other, f.value);
      } else {
        assert forall j :: 0 <= j < |rows2| ==> RowChat(rows2[j]) != Some(other);
      }
    }
  }

  /** Merging into the first row of a chat that keeps its chat id changes
      only that chat's row. */
  lemma MergeRow(rows: seq<Row>, k: nat, data: Row, chatId: int)
    requires OneRowPerChat(rows) && FirstIndex(rows, chatId) == Some(k) && RowChat(data) == Some(chatId)
    ensures OneRowPerChat(rows[k := rows[k] + data])
    ensures FirstRow(rows[k := rows[k] + data], chatId) == Some(rows[k] + data)
    ensures forall other :: other != chatId ==> FirstRow(rows[k := rows[k] + data], other) == FirstRow(rows, other)
  {
    var rows2 := rows[k := rows[k] + data];
    assert RowChat(rows[k] + data) == Some(chatId);
    assert forall j :: 0 <= j < |rows| ==> RowChat(rows2[j]) == RowChat(rows[j]);
    FirstIndexIs(rows2, chatId, k);
    forall other | other != chatId ensures FirstRow(rows2, other) == FirstRow(rows, other) {
      var f := FirstIndex(rows, other);
      if f.Some? {
        FirstIndexIs(rows2, other, f.value);
      }
    }
  }

  /** The row with one column set, when it belongs to `chatId`. */
  function WithCell(r: Row, chatId: int, key: string, value: Cell): Row {
    if RowChat(r) == Some(chatId) then r[key := value] else r
  }

  /** How many rows belong to `chatId`. */
  function CountChat(rows: seq<Row>, chatId: int): nat {
    if |rows| == 0 then 0
    else CountChat(rows[..|rows| - 1], chatId) + (if RowChat(rows[|rows| - 1]) == Some(chatId) then 1 else 0)
  }

  class SettingsService {
    /** The bot's `ReduceChatId` (drop the `-100` prefix of supergroups). */
    const reduce: int -> int
    /** The bot's `ToBool` on a cell's text. */
    const toBool: string -> bool
    /** The `group_settings` table. */
    var rows: seq<Row>
    /** The setting cache, by cache key. */
    var cache: map<string, ChatSetting>

    /** At most one row per chat. */
    predicate Valid()
      reads this
    {
      OneRowPerChat(rows)
    }

    constructor(reduce: int -> int, toBool: string -> bool)
      ensures this.reduce == reduce && this.toBool == toBool
      ensures rows == [] && cache == map[] && Valid()
    {
      this.reduce := reduce;
      this.toBool := toBool;
      rows := [];
      cache := map[];
    }

    function GetCacheKey(chatId: int): string {
      CacheKey(reduce(chatId))
    }

    /** Two chats share a cache entry exactly when they reduce alike. */
    lemma CacheKeyShared(a: int, b: int)
      ensures GetCacheKey(a) == GetCacheKey(b) <==> reduce(a) == reduce(b)
    {
      CacheKeyInjective(reduce(a), reduce(b));
    }

    /** `GetSettingsByGroupCore`: the first row of the chat, if any. */
    function Stored(chatId: int): (r: Option<Row>)
      reads this
      ensures r.Some? <==> exists j :: 0 <= j < |rows| && RowChat(rows[j]) == Some(chatId)
      ensures r.Some? ==> r.value in rows && RowChat(r.value) == Some(chatId)
    {
      FirstRow(rows, chatId)
    }

    /** The typed setting a fresh read of the table gives. */
    function Fresh(chatId: int): ChatSetting
      reads this
    {
      if Stored(chatId).Some? then ChatSettingOf(Stored(chatId).value) else DefaultSetting
    }

    /** `IsSettingExist`. */
    function IsSettingExist(chatId: int): (b: bool)
      reads this
      ensures b <==> exists j :: 0 <= j < |rows| && RowChat(rows[j]) == Some(chatId)
    {
      Stored(chatId).Some?
    }

    /** `GetSettingsByGroup`: the cached setting; on a miss, the stored row
        (or the default setting) is read and cached. */
    method GetSettingsByGroup(chatId: int) returns (s: ChatSetting)
      modifies this`cache
      ensures GetCacheKey(chatId) in old(cache) ==> s == old(cache)[GetCacheKey(chatId)] && cache == old(cache)
      ensures GetCacheKey(chatId) !in old(cache) ==> s == Fresh(chatId) && cache == old(cache)[GetCacheKey(chatId) := s]
      ensures GetCacheKey(chatId) in cache && cache[GetCacheKey(chatId)] == s
    {
      var key := GetCacheKey(chatId);
      if key in cache {
        s := cache[key];
      } else {
        var row := Stored(chatId);
        s := if row.Some? then ChatSettingOf(row.value) else DefaultSetting;
        cache := cache[key := s];
      }
    }

    /** `UpdateCacheAsync`: refresh the entry from the table; a chat without
        a row leaves the cache as it is. */
    method UpdateCache(chatId: int)
      modifies this`cache
      ensures Stored(chatId).None? ==> cache == old(cache)
      ensures Stored(chatId).Some? ==> cache == old(cache)[GetCacheKey(chatId) := ChatSettingOf(Stored(chatId).value)]
    {
      var row := Stored(chatId);
      if row.Some? {
        cache := cache[GetCacheKey(chatId) := ChatSettingOf(row.value)];
      }
    }

    /** `SaveSettingsAsync`: insert the payload as the chat's row, or merge it
        into the chat's existing row, then refresh the cache. A payload
        without a numeric `chat_id` throws. The result is the number of rows
        written. */
    method SaveSettings(data: Row) returns (r: Exit<nat>)
      requires Valid()
      modifies this`rows, this`cache
      ensures RowChat(data).None? <==> r.Raised?
      ensures r.Raised? ==> rows == old(rows) && cache == old(cache)
      ensures r.Returned? ==> Valid() && r.value == 1
      ensures r.Returned? ==> var c := RowChat(data).value;
        && Stored(c).Some? && Stored(c).value == (if old(IsSettingExist(c)) then old(Stored(c)).value + data else data)
        && cache == old(cache)[GetCacheKey(c) := ChatSettingOf(Stored(c).value)]
        && (forall other :: other != c ==> Stored(other) == old(Stored(other)))
    {
      var c := RowChat(data);
      if c.None? {
        return Raised;
      }
      var chatId := c.value;
      var k := FirstIndex(rows, chatId);
      if k.None? {
        AppendRow(rows, data, chatId);
        rows := rows + [data];
      } else {
        MergeRow(rows, k.value, data, chatId);
        rows := rows[k.value := rows[k.value] + data];
      }
      UpdateCache(chatId);
      r := Returned(1);
    }

    /** `UpdateCell`: set one column of the chat's rows, then refresh the
        cache; the result is the number of rows changed. */
    method UpdateCell(chatId: int, key: string, value: Cell) returns (n: nat)
      modifies this`rows, this`cache
      ensures |rows| == |old(rows)|
      ensures forall j :: 0 <= j < |rows| ==> rows[j] == WithCell(old(rows)[j], chatId, key, value)
      ensures n == CountChat(old(rows), chatId)
      ensures Stored(chatId).None? ==> cache == old(cache)
      ensures Stored(chatId).Some? ==> cache == old(cache)[GetCacheKey(chatId) := ChatSettingOf(Stored(chatId).value)]
      ensures key != "chat_id" && old(Valid()) ==> Valid()
    {
      var updated: seq<Row> := [];
      var i := 0;
      n := 0;
      while i < |rows|
        invariant rows == old(rows) && cache == old(cache)
        invariant 0 <= i <= |rows| && |updated| == i
        invariant forall j :: 0 <= j < i ==> updated[j] == WithCell(rows[j], chatId, key, value)
        invariant n == CountChat(rows[..i], chatId)
      {
        assert rows[..i + 1][..i] == rows[..i];
        if RowChat(rows[i]) == Some(chatId) {
          n := n + 1;
        }
        updated := updated + [WithCell(rows[i], chatId, key, value)];
        i := i + 1;
      }
      assert rows[..i] == rows;
      if key != "chat_id" {
        assert forall j :: 0 <= j < |rows| ==> RowChat(updated[j]) == RowChat(rows[j]);
      }
      rows := updated;
      UpdateCache(chatId);
    }

    /** The buttons of the given toggle columns for one stored row. */
    method ToggleButtons(cols: seq<string>, row: Row, appendChatId: bool, chatId: int) returns (buttons: seq<CallBackButton>)
      requires forall i :: 0 <= i < |cols| ==> |cols[i]| >= 7 && cols[i][..7] == "enable_"
      ensures |buttons| == |cols|
      ensures forall i :: 0 <= i < |cols| ==>
        var on := toBool(CellTextAt(row, cols[i]));
        && buttons[i] == SettingButton(cols[i], on, appendChatId, chatId)
        && (StartsWith(buttons[i].data, "setting enable_") <==> on)
        && buttons[i].text[0] == (if on then OnMark else OffMark)
    {
      buttons := [];
      var i := 0;
      while i < |cols|
        invariant 0 <= i <= |cols| && |buttons| == i
        invariant forall k :: 0 <= k < i ==>
          var on := toBool(CellTextAt(row, cols[k]));
          && buttons[k] == SettingButton(cols[k], on, appendChatId, chatId)
          && (StartsWith(buttons[k].data, "setting enable_") <==> on)
          && buttons[k].text[0] == (if on then OnMark else OffMark)
      {
        var col := cols[i];
        var on := toBool(CellTextAt(row, col));
        SettingButtonShowsState(col[7..], on, appendChatId, chatId);
        assert col == "enable_" + col[7..];
        buttons := buttons + [SettingButton(col, on, appendChatId, chatId)];
        i := i + 1;
      }
    }

    /** `GetSettingButtonByGroup`: one button per toggle column, read from
        the chat's first row, each showing and recording whether the toggle
        is on; a chat without a row throws (`Rows[0]`). */
    method GetSettingButtonByGroup(chatId: int, appendChatId: bool) returns (r: Exit<seq<CallBackButton>>)
      ensures r.Raised? <==> Stored(chatId).None?
      ensures r.Returned? ==> |r.value| == |ToggleColumns|
      ensures r.Returned? ==> forall i :: 0 <= i < |ToggleColumns| ==>
        var on := toBool(CellTextAt(Stored(chatId).value, ToggleColumns[i]));
        && r.value[i] == SettingButton(ToggleColumns[i], on, appendChatId, chatId)
        && (StartsWith(r.value[i].data, "setting enable_") <==> on)
        && r.value[i].text[0] == (if on then OnMark else OffMark)
    {
      var row := Stored(chatId);
      if row.None? {
        return Raised;
      }
      ToggleColumnsAreToggles();
      var buttons := ToggleButtons(ToggleColumns, row.value, appendChatId, chatId);
      r := Returned(buttons);
    }

    /** `DeleteSettings`: drop the chat's rows and return how many there
        were. The cache is not touched, so a cached setting outlives its
        row. */
    method DeleteSettings(chatId: int) returns (n: nat)
      modifies this`rows
      ensures rows == RowsWithout(old(rows), chatId)
      ensures n == |old(rows)| - |rows|
      ensures Stored(chatId).None?
      ensures old(Valid()) ==> Valid()
    {
      if Valid() {
        DeleteKeepsOthers(rows, chatId);
      }
      var kept := RowsWithout(rows, chatId);
      n := |rows| - |kept|;
      rows := kept;
    }
  }

  /** The rows that do not belong to `chatId`, in order. */
  function RowsWithout(rows: seq<Row>, chatId: int): (r: seq<Row>)
    ensures |r| <= |rows|
    ensures forall j :: 0 <= j < |r| ==> RowChat(r[j]) != Some(chatId)
    ensures forall x :: x in r <==> x in rows && RowChat(x) != Some(chatId)
  {
    if |rows| == 0 then []
    else if RowChat(rows[0]) == Some(chatId) then RowsWithout(rows[1..], chatId)
    else [rows[0]] + RowsWithout(rows[1..], chatId)
  }

  /** Dropping rows never puts two rows of one chat together. */
  lemma {:induction false} DeleteKeepsOthers(rows: seq<Row>, chatId: int)
    requires OneRowPerChat(rows)
    ensures OneRowPerChat(RowsWithout(rows, chatId))
  {
    if |rows| > 0 {
      var tail := rows[1..];
      assert OneRowPerChat(tail) by {
        forall i, j | 0 <= i < j < |tail| && RowChat(tail[i]).Some?
          ensures RowChat(tail[i]) != RowChat(tail[j])
        {
          assert tail[i] == rows[i + 1] && tail[j] == rows[j + 1];
        }
      }
      DeleteKeepsOthers(tail, chatId);
      if RowChat(rows[0]) != Some(chatId) {
        var rest := RowsWithout(tail, chatId);
        var r := [rows[0]] + rest;
        assert r == RowsWithout(rows, chatId);
        forall i, j | 0 <= i < j < |r| && RowChat(r[i]).Some?
          ensures RowChat(r[i]) != RowChat(r[j])
        {
          if i == 0 {
            assert r[j] in rest;
            assert r[j] in tail;
            var k :| 0 <= k < |tail| && tail[k] == r[j];
            assert rows[k + 1] == r[j];
          } else {
            assert r[i] == rest[i - 1] && r[j] == rest[j - 1];
          }
        }
      }
    }
  }
}
