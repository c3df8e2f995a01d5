/**
 * The decision logic of core/bot.py: prefix resolution (`get_prefix`), the
 * start-up fold of database rows into the settings cache (`populate_cache`),
 * the size branch of `log_error` and the `on_message_edit` guard.
 */
module Bot {
  import opened Wrappers
  import opened Text
  import opened Cache

  // ---------------------------------------------------------------- get_prefix

  /** The bot's own prefix: "fish " in production, ";" when testing. */
  function DefaultPrefixes(testing: bool): seq<string> {
    if testing then [";"] else ["fish "]
  }

  /** The alternatives of the prefix pattern, in the order they are tried. */
  function Candidates(testing: bool, guild: Option<int>, prefixes: map<int, seq<string>>): seq<string> {
    match guild
    case None => DefaultPrefixes(testing)
    case Some(g) => DefaultPrefixes(testing) + Lookup(prefixes, g)
  }

  /** `p` matches the start of `content`, ignoring ASCII case. */
  predicate IsPrefixIgnoringCase(p: string, content: string) {
    |p| <= |content| && Fold(p) == Fold(content[..|p|])
  }

  /** The alternative a leftmost-first regex alternation picks: the first candidate that matches. */
  function FirstMatch(candidates: seq<string>, content: string): (r: Option<nat>)
    ensures r.Some? ==> r.value < |candidates| && IsPrefixIgnoringCase(candidates[r.value], content)
    ensures r.Some? ==> forall j :: 0 <= j < r.value ==> !IsPrefixIgnoringCase(candidates[j], content)
    ensures r.None? ==> forall j :: 0 <= j < |candidates| ==> !IsPrefixIgnoringCase(candidates[j], content)
  {
    if candidates == [] then None
    else if IsPrefixIgnoringCase(candidates[0], content) then Some(0)
    else
      match FirstMatch(candidates[1..], content)
      case None => None
      case Some(i) => Some(i + 1)
  }

  /**
   * The prefixes `get_prefix` hands to the command framework (the mention
   * prefixes that `when_mentioned_or` adds are not part of this model).
   */
  function GetPrefix(testing: bool, guild: Option<int>, prefixes: map<int, seq<string>>, content: string): (r: seq<string>)
    // Outside a guild: exactly the default.
    ensures guild.None? ==> r == DefaultPrefixes(testing)
    // In a guild, the first matching candidate wins, and the result is the content's own text.
    ensures guild.Some? ==>
      var c := DefaultPrefixes(testing) + Lookup(prefixes, guild.value);
      forall i :: 0 <= i < |c| && IsPrefixIgnoringCase(c[i], content)
        && (forall j :: 0 <= j < i ==> !IsPrefixIgnoringCase(c[j], content))
        ==> r == [content[..|c[i]|]] && Fold(r[0]) == Fold(c[i])
    // In a guild with no match, every candidate is returned.
    ensures guild.Some? ==>
      var c := DefaultPrefixes(testing) + Lookup(prefixes, guild.value);
      (forall j :: 0 <= j < |c| ==> !IsPrefixIgnoringCase(c[j], content)) ==> r == c
  {
    var candidates := Candidates(testing, guild, prefixes);
    if guild.None? then candidates
    else
      match FirstMatch(candidates, content)
      case Some(i) => [content[..|candidates[i]|]]
      case None => candidates
  }

  /** A guild without cached prefixes offers only the default. */
  lemma UncachedGuildUsesDefault(testing: bool, g: int, prefixes: map<int, seq<string>>)
    requires g !in prefixes
    ensures Candidates(testing, Some(g), prefixes) == DefaultPrefixes(testing)
  {
    assert DefaultPrefixes(testing) + [] == DefaultPrefixes(testing);
  }

  // ------------------------------------------------------------ populate_cache

  datatype PrefixRow = PrefixRow(guildId: int, prefix: string)
  /** A row of `opted_out` (id is user_id) or of `guild_opted_out` (id is guild_id). */
  datatype OptOutRow = OptOutRow(id: int, items: seq<string>)
  /** A row of `guild_settings`; NULL columns are None (or false for the flags). */
  datatype SettingsRow = SettingsRow(guildId: int, autoDownload: Option<int>, poketwo: bool,
                                     autoReactions: bool, pinboard: Option<int>)

  /** Python truthiness of a nullable integer column. */
  predicate Truthy(o: Option<int>) { o.Some? && o.value != 0 }

  /** `prefixes` after `add_prefix` for each row in order. */
  function AddPrefixRows(m: map<int, seq<string>>, rows: seq<PrefixRow>): map<int, seq<string>> {
    if rows == [] then m
    else
      var last := rows[|rows| - 1];
      Appended(AddPrefixRows(m, rows[..|rows| - 1]), last.guildId, last.prefix)
  }

  /** The prefixes the rows give to guild `g`, in row order. */
  function PrefixesOf(rows: seq<PrefixRow>, g: int): seq<string> {
    if rows == [] then []
    else
      var last := rows[|rows| - 1];
      PrefixesOf(rows[..|rows| - 1], g) + (if last.guildId == g then [last.prefix] else [])
  }

  /** Each guild's list is its old list followed by its rows' prefixes, in row order. */
  lemma {:induction false} AddPrefixRowsLookup(m: map<int, seq<string>>, rows: seq<PrefixRow>, g: int)
    ensures Lookup(AddPrefixRows(m, rows), g) == Lookup(m, g) + PrefixesOf(rows, g)
  {
    if rows != [] {
      var init, last := rows[..|rows| - 1], rows[|rows| - 1];
      AddPrefixRowsLookup(m, init, g);
      AppendedLookup(AddPrefixRows(m, init), last.guildId, last.prefix, g);
      var own := if last.guildId == g then [last.prefix] else [];
      assert Lookup(m, g) + PrefixesOf(init, g) + own == Lookup(m, g) + (PrefixesOf(init, g) + own);
    }
  }

  lemma {:induction false} PrefixesOfContains(rows: seq<PrefixRow>, i: nat)
    requires i < |rows|
    ensures rows[i].prefix in PrefixesOf(rows, rows[i].guildId)
  {
    if i < |rows| - 1 {
      PrefixesOfContains(rows[..|rows| - 1], i);
    }
  }

  /** After population every prefix row (g, p) is in prefixes[g]. */
  lemma PrefixRowsPresent(m: map<int, seq<string>>, rows: seq<PrefixRow>, i: nat)
    requires i < |rows|
    ensures rows[i].guildId in AddPrefixRows(m, rows)
    ensures rows[i].prefix in AddPrefixRows(m, rows)[rows[i].guildId]
  {
    AddPrefixRowsLookup(m, rows, rows[i].guildId);
    PrefixesOfContains(rows, i);
  }

  /** `opted_out` after `add_opt_out(id, item)` for each item in order. */
  function AddItems(m: map<int, seq<string>>, id: int, items: seq<string>): map<int, seq<string>> {
    if items == [] then m else Appended(AddItems(m, id, items[..|items| - 1]), id, items[|items| - 1])
  }

  function AddOptOutRows(m: map<int, seq<string>>, rows: seq<OptOutRow>): map<int, seq<string>> {
    if rows == [] then m
    else
      var last := rows[|rows| - 1];
      AddItems(AddOptOutRows(m, rows[..|rows| - 1]), last.id, last.items)
  }

  /** The items the rows give to subject `k`, in row order. */
  function ItemsOf(rows: seq<OptOutRow>, k: int): seq<string> {
    if rows == [] then []
    else
      var last := rows[|rows| - 1];
      ItemsOf(rows[..|rows| - 1], k) + (if last.id == k then last.items else [])
  }

  lemma {:induction false} AddItemsLookup(m: map<int, seq<string>>, id: int, items: seq<string>, k: int)
    ensures Lookup(AddItems(m, id, items), k) == Lookup(m, k) + (if k == id then items else [])
  {
    if items != [] {
      var init, last := items[..|items| - 1], items[|items| - 1];
      var before := AddItems(m, id, init);
      AddItemsLookup(m, id, init, k);
      AppendedLookup(before, id, last, k);
      assert AddItems(m, id, items) == Appended(before, id, last);
      if k == id {
        assert init + [last] == items;
        assert Lookup(m, k) + init + [last] == Lookup(m, k) + items;
      }
    }
  }

  /** Each subject's list is its old list followed by the items of its rows, in row order. */
  lemma {:induction false} AddOptOutRowsLookup(m: map<int, seq<string>>, rows: seq<OptOutRow>, k: int)
    ensures Lookup(AddOptOutRows(m, rows), k) == Lookup(m, k) + ItemsOf(rows, k)
  {
    if rows != [] {
      var init, last := rows[..|rows| - 1], rows[|rows| - 1];
      AddOptOutRowsLookup(m, init, k);
      AddItemsLookup(AddOptOutRows(m, init), last.id, last.items, k);
    }
  }

  lemma {:induction false} ItemsOfContains(rows: seq<OptOutRow>, i: nat, j: nat)
    requires i < |rows| && j < |rows[i].items|
    ensures rows[i].items[j] in ItemsOf(rows, rows[i].id)
  {
    if i < |rows| - 1 {
      ItemsOfContains(rows[..|rows| - 1], i, j);
    }
  }

  /**
   * After population every item of every user row and every guild row is in
   * the one shared opt-out map under its id.
   */
  lemma OptOutRowsPresent(m: map<int, seq<string>>, users: seq<OptOutRow>, guilds: seq<OptOutRow>)
    ensures forall i, j :: 0 <= i < |users| && 0 <= j < |users[i].items| ==>
      users[i].items[j] in Lookup(AddOptOutRows(AddOptOutRows(m, users), guilds), users[i].id)
    ensures forall i, j :: 0 <= i < |guilds| && 0 <= j < |guilds[i].items| ==>
      guilds[i].items[j] in Lookup(AddOptOutRows(AddOptOutRows(m, users), guilds), guilds[i].id)
  {
    var mid := AddOptOutRows(m, users);
    forall i, j | 0 <= i < |users| && 0 <= j < |users[i].items|
      ensures users[i].items[j] in Lookup(AddOptOutRows(mid, guilds), users[i].id)
    {
      AddOptOutRowsLookup(m, users, users[i].id);
      AddOptOutRowsLookup(mid, guilds, users[i].id);
      ItemsOfContains(users, i, j);
    }
    forall i, j | 0 <= i < |guilds| && 0 <= j < |guilds[i].items|
      ensures guilds[i].items[j] in Lookup(AddOptOutRows(mid, guilds), guilds[i].id)
    {
      AddOptOutRowsLookup(mid, guilds, guilds[i].id);
      ItemsOfContains(guilds, i, j);
    }
  }

  /** The auto-download channels the settings rows append, in row order. */
  /** What one settings row contributes to each container. */
  function RowAdl(row: SettingsRow): seq<int> {
    if Truthy(row.autoDownload) then [row.autoDownload.value] else []
  }

  function RowPoketwo(row: SettingsRow): seq<int> {
    if row.poketwo then [row.guildId] else []
  }

  function RowReaction(row: SettingsRow): seq<int> {
    if row.autoReactions then [row.guildId] else []
  }

  function RowPinboard(m: map<int, int>, row: SettingsRow): map<int, int> {
    if Truthy(row.pinboard) then m[row.guildId := row.pinboard.value] else m
  }

  function AdlChannels(rows: seq<SettingsRow>): seq<int> {
    if rows == [] then [] else AdlChannels(rows[..|rows| - 1]) + RowAdl(rows[|rows| - 1])
  }

  function PoketwoIds(rows: seq<SettingsRow>): seq<int> {
    if rows == [] then [] else PoketwoIds(rows[..|rows| - 1]) + RowPoketwo(rows[|rows| - 1])
  }

  function ReactionIds(rows: seq<SettingsRow>): seq<int> {
    if rows == [] then [] else ReactionIds(rows[..|rows| - 1]) + RowReaction(rows[|rows| - 1])
  }

  function PinboardAfter(m: map<int, int>, rows: seq<SettingsRow>): map<int, int> {
    if rows == [] then m else RowPinboard(PinboardAfter(m, rows[..|rows| - 1]), rows[|rows| - 1])
  }

  /** A channel is appended exactly when some row carries it as a truthy auto_download. */
  lemma {:induction false} AdlChannelsExactly(rows: seq<SettingsRow>, c: int)
    ensures c in AdlChannels(rows) <==>
      exists i :: 0 <= i < |rows| && Truthy(rows[i].autoDownload) && rows[i].autoDownload.value == c
  {
    if rows != [] {
      var init, n := rows[..|rows| - 1], |rows| - 1;
      AdlChannelsExactly(init, c);
      assert c in AdlChannels(rows) <==> c in AdlChannels(init) || c in RowAdl(rows[n]);
      if c in AdlChannels(init) {
        var i :| 0 <= i < |init| && Truthy(init[i].autoDownload) && init[i].autoDownload.value == c;
        assert rows[i] == init[i];
      }
      if exists i :: 0 <= i < |rows| && Truthy(rows[i].autoDownload) && rows[i].autoDownload.value == c {
        var i :| 0 <= i < |rows| && Truthy(rows[i].autoDownload) && rows[i].autoDownload.value == c;
        if i < n {
          assert init[i] == rows[i];
        }
      }
    }
  }

  /** A guild is appended to the poketwo list exactly when one of its rows has poketwo set. */
  lemma {:induction false} PoketwoIdsExactly(rows: seq<SettingsRow>, g: int)
    ensures g in PoketwoIds(rows) <==> exists i :: 0 <= i < |rows| && rows[i].poketwo && rows[i].guildId == g
  {
    if rows != [] {
      var init, n := rows[..|rows| - 1], |rows| - 1;
      PoketwoIdsExactly(init, g);
      assert g in PoketwoIds(rows) <==> g in PoketwoIds(init) || g in RowPoketwo(rows[n]);
      if g in PoketwoIds(init) {
        var i :| 0 <= i < |init| && init[i].poketwo && init[i].guildId == g;
        assert rows[i] == init[i];
      }
      if exists i :: 0 <= i < |rows| && rows[i].poketwo && rows[i].guildId == g {
        var i :| 0 <= i < |rows| && rows[i].poketwo && rows[i].guildId == g;
        if i < n {
          assert init[i] == rows[i];
        }
      }
    }
  }

  /** A guild is appended to the auto-reaction list exactly when one of its rows has auto_reactions set. */
  lemma {:induction false} ReactionIdsExactly(rows: seq<SettingsRow>, g: int)
    ensures g in ReactionIds(rows) <==> exists i :: 0 <= i < |rows| && rows[i].autoReactions && rows[i].guildId == g
  {
    if rows != [] {
      var init, n := rows[..|rows| - 1], |rows| - 1;
      ReactionIdsExactly(init, g);
      assert g in ReactionIds(rows) <==> g in ReactionIds(init) || g in RowReaction(rows[n]);
      if g in ReactionIds(init) {
        var i :| 0 <= i < |init| && init[i].autoReactions && init[i].guildId == g;
        assert rows[i] == init[i];
      }
      if exists i :: 0 <= i < |rows| && rows[i].autoReactions && rows[i].guildId == g {
        var i :| 0 <= i < |rows| && rows[i].autoReactions && rows[i].guildId == g;
        if i < n {
          assert init[i] == rows[i];
        }
      }
    }
  }

  /** The row sets guild `g`'s Pinboard channel. */
  predicate SetsPinboard(row: SettingsRow, g: int) {
    row.guildId == g && Truthy(row.pinboard)
  }

  /** A guild with no row setting a Pinboard channel keeps its old entry (or its absence). */
  lemma {:induction false} PinboardAfterUntouched(m: map<int, int>, rows: seq<SettingsRow>, g: int)
    requires forall i :: 0 <= i < |rows| ==> !SetsPinboard(rows[i], g)
    ensures g in PinboardAfter(m, rows) <==> g in m
    ensures g in m ==> PinboardAfter(m, rows)[g] == m[g]
  {
    if rows != [] {
      var init := rows[..|rows| - 1];
      assert forall i :: 0 <= i < |init| ==> init[i] == rows[i];
      PinboardAfterUntouched(m, init, g);
    }
  }

  /** The Pinboard channel of a guild is the one of its last row that sets one. */
  lemma {:induction false} PinboardAfterLastRow(m: map<int, int>, rows: seq<SettingsRow>, g: int, i: nat)
    requires i < |rows| && SetsPinboard(rows[i], g)
    requires forall j :: i < j < |rows| ==> !SetsPinboard(rows[j], g)
    ensures g in PinboardAfter(m, rows) && PinboardAfter(m, rows)[g] == rows[i].pinboard.value
  {
    var init := rows[..|rows| - 1];
    if i < |rows| - 1 {
      assert forall j :: 0 <= j < |init| ==> init[j] == rows[j];
      PinboardAfterLastRow(m, init, g, i);
    }
  }

  /**
   * `populate_cache`: the four fetches are the input sequences. Prefix rows,
   * then user opt-outs, then guild opt-outs (into the same map), then guild
   * settings, each through the cache's own mutators.
   */
  method PopulateCache(cache: DbCache, prefixRows: seq<PrefixRow>, userOptOuts: seq<OptOutRow>,
                       guildOptOuts: seq<OptOutRow>, settings: seq<SettingsRow>)
    modifies cache
    ensures cache.prefixes == AddPrefixRows(old(cache.prefixes), prefixRows)
    ensures cache.optedOut == AddOptOutRows(AddOptOutRows(old(cache.optedOut), userOptOuts), guildOptOuts)
    ensures cache.autoDownloads == old(cache.autoDownloads) + AdlChannels(settings)
    ensures cache.pinboard == PinboardAfter(old(cache.pinboard), settings)
    ensures cache.poketwoGuilds == old(cache.poketwoGuilds) + PoketwoIds(settings)
    ensures cache.autoReactionGuilds == old(cache.autoReactionGuilds) + ReactionIds(settings)
    ensures cache.nsfwCovers == old(cache.nsfwCovers)
  {
    AddPrefixes(cache, prefixRows);
    AddOptOuts(cache, userOptOuts);
    AddOptOuts(cache, guildOptOuts);
    ApplySettings(cache, settings);
  }

  /** The loop over `guild_prefixes` rows. */
  method AddPrefixes(cache: DbCache, rows: seq<PrefixRow>)
    modifies cache`prefixes
    ensures cache.prefixes == AddPrefixRows(old(cache.prefixes), rows)
  {
    for i := 0 to |rows|
      invariant cache.prefixes == AddPrefixRows(old(cache.prefixes), rows[..i])
    {
      assert rows[..i + 1][..i] == rows[..i];
      var _ := cache.AddPrefix(rows[i].guildId, rows[i].prefix);
    }
    assert rows[..|rows|] == rows;
  }

  /** The loop over `guild_settings` rows: falsy columns add nothing. */
  method ApplySettings(cache: DbCache, rows: seq<SettingsRow>)
    modifies cache`autoDownloads, cache`pinboard, cache`poketwoGuilds, cache`autoReactionGuilds
    ensures cache.autoDownloads == old(cache.autoDownloads) + AdlChannels(rows)
    ensures cache.pinboard == PinboardAfter(old(cache.pinboard), rows)
    ensures cache.poketwoGuilds == old(cache.poketwoGuilds) + PoketwoIds(rows)
    ensures cache.autoReactionGuilds == old(cache.autoReactionGuilds) + ReactionIds(rows)
  {
    for i := 0 to |rows|
      invariant cache.autoDownloads == old(cache.autoDownloads) + AdlChannels(rows[..i])
      invariant cache.pinboard == PinboardAfter(old(cache.pinboard), rows[..i])
      invariant cache.poketwoGuilds == old(cache.poketwoGuilds) + PoketwoIds(rows[..i])
      invariant cache.autoReactionGuilds == old(cache.autoReactionGuilds) + ReactionIds(rows[..i])
    {
      AdlStep(old(cache.autoDownloads), rows, i);
      PinboardStep(old(cache.pinboard), rows, i);
      PoketwoStep(old(cache.poketwoGuilds), rows, i);
      ReactionStep(old(cache.autoReactionGuilds), rows, i);
      ApplyRow(cache, rows[i]);
    }
    assert rows[..|rows|] == rows;
  }

  /** One more settings row extends each fold by that row's contribution. */
  lemma AdlStep(adl: seq<int>, rows: seq<SettingsRow>, i: nat)
    requires i < |rows|
    ensures adl + AdlChannels(rows[..i + 1]) == adl + AdlChannels(rows[..i]) + RowAdl(rows[i])
  {
    assert rows[..i + 1][..i] == rows[..i];
  }

  lemma PinboardStep(pins: map<int, int>, rows: seq<SettingsRow>, i: nat)
    requires i < |rows|
    ensures PinboardAfter(pins, rows[..i + 1]) == RowPinboard(PinboardAfter(pins, rows[..i]), rows[i])
  {
    assert rows[..i + 1][..i] == rows[..i];
  }

  lemma PoketwoStep(poketwo: seq<int>, rows: seq<SettingsRow>, i: nat)
    requires i < |rows|
    ensures poketwo + PoketwoIds(rows[..i + 1]) == poketwo + PoketwoIds(rows[..i]) + RowPoketwo(rows[i])
  {
    assert rows[..i + 1][..i] == rows[..i];
  }

  lemma ReactionStep(reactions: seq<int>, rows: seq<SettingsRow>, i: nat)
    requires i < |rows|
    ensures reactions + ReactionIds(rows[..i + 1]) == reactions + ReactionIds(rows[..i]) + RowReaction(rows[i])
  {
    assert rows[..i + 1][..i] == rows[..i];
  }

  /** The body of the settings loop for one row: each truthy column reaches its container. */
  method ApplyRow(cache: DbCache, row: SettingsRow)
    modifies cache`autoDownloads, cache`pinboard, cache`poketwoGuilds, cache`autoReactionGuilds
    ensures cache.autoDownloads == old(cache.autoDownloads) + RowAdl(row)
    ensures cache.pinboard == RowPinboard(old(cache.pinboard), row)
    ensures cache.poketwoGuilds == old(cache.poketwoGuilds) + RowPoketwo(row)
    ensures cache.autoReactionGuilds == old(cache.autoReactionGuilds) + RowReaction(row)
  {
    if Truthy(row.autoDownload) {
      cache.AddAdl(row.autoDownload.value);
    }
    if Truthy(row.pinboard) {
      cache.AddPinboard(row.guildId, row.pinboard.value);
    }
    if row.poketwo {
      cache.AddPoketwo(row.guildId);
    }
    if row.autoReactions {
      cache.AddReactionGuilds(row.guildId);
    }
  }


  /** The nested loop over opt-out rows and their items. */
  method AddOptOuts(cache: DbCache, rows: seq<OptOutRow>)
    modifies cache`optedOut
    ensures cache.optedOut == AddOptOutRows(old(cache.optedOut), rows)
  {
    for i := 0 to |rows|
      invariant cache.optedOut == AddOptOutRows(old(cache.optedOut), rows[..i])
    {
      assert rows[..i + 1][..i] == rows[..i];
      ghost var before := cache.optedOut;
      var items := rows[i].items;
      for j := 0 to |items|
        invariant cache.optedOut == AddItems(before, rows[i].id, items[..j])
      {
        assert items[..j + 1][..j] == items[..j];
        var _ := cache.AddOptOut(rows[i].id, items[j]);
      }
      assert items[..|items|] == items;
    }
    assert rows[..|rows|] == rows;
  }

  // ----------------------------------------------------------------- log_error

  /** What `log_error` sends to the error webhook: the message content and the attached files' texts. */
  datatype ErrorReport = ErrorReport(content: string, files: seq<string>)

  const Fence: string := "```py\n"
  const FenceEnd: string := "\n```"

  /** A traceback over 2000 characters goes out as one attachment; a shorter one is fenced. */
  function LogError(excinfo: string): (r: ErrorReport)
    ensures |r.files| == 1 <==> |excinfo| > 2000
    ensures |excinfo| > 2000 ==> r.content == "File too large"
    ensures |excinfo| <= 2000 ==> r.files == []
    ensures |excinfo| <= 2000 ==>
      && |r.content| == |Fence| + |excinfo| + |FenceEnd|
      && r.content[..|Fence|] == Fence
      && r.content[|r.content| - |FenceEnd|..] == FenceEnd
    ensures |excinfo| > 2000 ==> r.files == [excinfo]
  {
    if |excinfo| > 2000 then ErrorReport("File too large", [excinfo])
    else ErrorReport(Fence + excinfo + FenceEnd, [])
  }

  /** The traceback an operator reads back from a report: the attachment, or the fenced text. */
  function ReadBack(r: ErrorReport): string {
    if r.files != [] then r.files[0]
    else if |r.content| >= |Fence| + |FenceEnd| then r.content[|Fence|..|r.content| - |FenceEnd|]
    else r.content
  }

  /** No traceback text is lost: it can always be read back from the report. */
  lemma LogErrorReadBack(excinfo: string)
    ensures ReadBack(LogError(excinfo)) == excinfo
  {
    if |excinfo| <= 2000 {
      var c := Fence + excinfo + FenceEnd;
      assert c[|Fence|..|c| - |FenceEnd|] == excinfo;
    }
  }

  /**
   * The size test counts the traceback but not the 10 fence characters, so a
   * traceback of 1991 to 2000 characters yields content over Discord's
   * 2000-character message limit.
   */
  lemma LogErrorCanExceedLimit(excinfo: string)
    requires |excinfo| == 2000
    ensures |LogError(excinfo).content| == 2010
  {
  }

  /** The intended behaviour: the threshold leaves room for the fence. */
  function LogErrorWithinLimit(excinfo: string): (r: ErrorReport)
    ensures |r.content| <= 2000
    ensures ReadBack(r) == excinfo
    ensures |r.files| == 1 <==> |excinfo| + |Fence| + |FenceEnd| > 2000
  {
    if |excinfo| + |Fence| + |FenceEnd| > 2000 then ErrorReport("File too large", [excinfo])
    else
      var c := Fence + excinfo + FenceEnd;
      assert c[|Fence|..|c| - |FenceEnd|] == excinfo;
      ErrorReport(c, [])
  }

  // ----------------------------------------------------------- on_message_edit

  /** A message as an edit event carries it. */
  datatype Message = Message(id: int, content: string)

  /** One `on_message_edit` event: the message before and after the edit. */
  datatype Edit = Edit(before: Message, after: Message)

  /** The messages a sequence of edit events hands to `process_commands`, in event order. */
  function Reprocessed(edits: seq<Edit>): (r: seq<Message>)
    ensures |r| <= |edits|
  {
    if edits == [] then []
    else
      var e := edits[|edits| - 1];
      Reprocessed(edits[..|edits| - 1]) + (if e.before.content != e.after.content then [e.after] else [])
  }

  /** Every reprocessed message comes from an edit that changed the text. */
  lemma {:induction false} ReprocessedSound(edits: seq<Edit>, m: Message)
    requires m in Reprocessed(edits)
    ensures exists i :: 0 <= i < |edits| && edits[i].after == m && edits[i].before.content != edits[i].after.content
  {
    var init, n := edits[..|edits| - 1], |edits| - 1;
    var e := edits[n];
    if m in Reprocessed(init) {
      ReprocessedSound(init, m);
      var i :| 0 <= i < |init| && init[i].after == m && init[i].before.content != init[i].after.content;
      assert edits[i] == init[i];
    } else {
      assert e.after == m && e.before.content != e.after.content;
    }
  }

  /** Every edit that changed the text has its new message reprocessed. */
  lemma {:induction false} ReprocessedComplete(edits: seq<Edit>, i: nat)
    requires i < |edits| && edits[i].before.content != edits[i].after.content
    ensures edits[i].after in Reprocessed(edits)
  {
    var init, n := edits[..|edits| - 1], |edits| - 1;
    if i < n {
      assert init[i] == edits[i];
      ReprocessedComplete(init, i);
    }
  }

  /**
   * A message is run through the command processor exactly when some edit
   * produced it and changed the text; edits that keep the text (an embed
   * resolving, a pin) never re-run a command.
   */
  lemma ReprocessedExactly(edits: seq<Edit>, m: Message)
    ensures m in Reprocessed(edits) <==>
      exists i :: 0 <= i < |edits| && edits[i].after == m && edits[i].before.content != edits[i].after.content
  {
    if m in Reprocessed(edits) {
      ReprocessedSound(edits, m);
    }
    if exists i :: 0 <= i < |edits| && edits[i].after == m && edits[i].before.content != edits[i].after.content {
      var i :| 0 <= i < |edits| && edits[i].after == m && edits[i].before.content != edits[i].after.content;
      ReprocessedComplete(edits, i);
    }
  }

  /** The bot as far as edits go: the messages it has run through the command processor. */
  class CommandProcessor {
    var processed: seq<Message>

    constructor()
      ensures processed == []
    {
      processed := [];
    }

    /** `on_message_edit`: the edited message is processed again only when its text changed. */
    method OnMessageEdit(before: Message, after: Message)
      modifies this
      ensures processed == old(processed) + (if before.content != after.content then [after] else [])
      ensures processed == old(processed) + Reprocessed([Edit(before, after)])
    {
      if before.content != after.content {
        processed := processed + [after];
      }
    }
  }
}
