/**
 * Composition helpers of the user and server info views in
 * extensions/discord_ext/info.py: the dropdown's option list and dispatch,
 * the avatar link list, badges, join position, status text, the emoji
 * tally of the server view, and the format and quality pickers. Embeds,
 * network answers and database rows are left to the library; the users,
 * members and emojis they describe are plain values here.
 */
module Info {
  import opened Wrappers
  import opened Text
  import opened Arith
  import Functions

  /** A `discord.SelectOption`. */
  datatype SelectOption = SelectOption(title: string, description: string, emoji: string, value: string)

  /** What the view knows about the user it shows; `isMember` is `isinstance(user, discord.Member)`. */
  datatype User = User(name: string, id: int, bot: bool, isMember: bool,
                       defaultAvatar: string, avatar: Option<string>, guildAvatar: Option<string>)

  /** The separately fetched user: only its banner matters here. */
  datatype FetchedUser = FetchedUser(banner: Option<string>)

  /** The kinds of option the user dropdown can offer, in the order it offers them. */
  datatype OptionKind = IndexOption | AvatarOption | ReviewsOption | BannerOption | StatusOption | BotOption

  function Rank(k: OptionKind): nat {
    match k
    case IndexOption => 0
    case AvatarOption => 1
    case ReviewsOption => 2
    case BannerOption => 3
    case StatusOption => 4
    case BotOption => 5
  }

  /** The option `UserDropdown.__init__` builds for each kind. */
  function OptionFor(user: User, k: OptionKind): (o: SelectOption)
    ensures o.value == ValueText(k)
  {
    match k
    case IndexOption => SelectOption("Index", "Goes back to home page", "\U{1F3E0}", "index")
    case AvatarOption => SelectOption("Avatar", "View " + user.name + "'s avatar", "\U{1F3A8}", "avatar")
    case ReviewsOption => SelectOption("Reviews", "View " + user.name + "'s reviews", "\U{1F4D4}", "reviews")
    case BannerOption => SelectOption("Banner", "View " + user.name + "'s banner", "\U{1F3F3}", "banner")
    case StatusOption => SelectOption("Statuses", "View " + user.name + "'s statuses", "\U{23F3}", "status")
    case BotOption => SelectOption("Bot", "View " + user.name + "'s bot info", "\U{1F916}", "bot")
  }

  /** The `value` a selected option reports back. */
  function ValueText(k: OptionKind): string {
    match k
    case IndexOption => "index"
    case AvatarOption => "avatar"
    case ReviewsOption => "reviews"
    case BannerOption => "banner"
    case StatusOption => "status"
    case BotOption => "bot"
  }

  predicate HasBanner(fetched: Option<FetchedUser>) {
    fetched.Some? && fetched.value.banner.Some?
  }

  /** `[k]` when `offered` holds, nothing otherwise. */
  function IfOffered(offered: bool, k: OptionKind): (r: seq<OptionKind>)
    ensures |r| <= 1
    ensures k in r <==> offered
    ensures forall x :: x in r ==> x == k
  {
    if offered then [k] else []
  }

  /** The kinds `UserDropdown.__init__` offers, always starting with Index, Avatar and Reviews. */
  function DropdownKinds(user: User, fetched: Option<FetchedUser>): (r: seq<OptionKind>)
    ensures |r| >= 3 && r[..3] == [IndexOption, AvatarOption, ReviewsOption]
  {
    var r := [IndexOption, AvatarOption, ReviewsOption]
      + IfOffered(HasBanner(fetched), BannerOption)
      + IfOffered(user.isMember, StatusOption)
      + IfOffered(user.bot, BotOption);
    assert r[..3] == [IndexOption, AvatarOption, ReviewsOption];
    r
  }

  /** Kinds listed in strictly increasing rank: each at most once, in the dropdown's order. */
  predicate Ranked(ks: seq<OptionKind>) {
    forall i, j :: 0 <= i < j < |ks| ==> Rank(ks[i]) < Rank(ks[j])
  }

  /** Every kind listed has a rank in `lo .. hi - 1`. */
  predicate RanksWithin(ks: seq<OptionKind>, lo: nat, hi: nat) {
    forall x :: x in ks ==> lo <= Rank(x) < hi
  }

  /** A ranked list followed by a ranked list of higher ranks is ranked. */
  lemma RankedAppend(a: seq<OptionKind>, b: seq<OptionKind>, m: nat, n: nat)
    requires m <= n
    requires Ranked(a) && RanksWithin(a, 0, m)
    requires Ranked(b) && RanksWithin(b, m, n)
    ensures Ranked(a + b) && RanksWithin(a + b, 0, n)
  {
    forall i, j | 0 <= i < j < |a + b|
      ensures Rank((a + b)[i]) < Rank((a + b)[j])
    {
      if j < |a| {
        assert (a + b)[i] == a[i] && (a + b)[j] == a[j];
      } else if i < |a| {
        assert (a + b)[i] in a && (a + b)[j] in b;
      } else {
        assert (a + b)[i] == b[i - |a|] && (a + b)[j] == b[j - |a|];
      }
    }
  }

  /** An optional kind on its own is ranked, at its own rank. */
  lemma OfferedRanked(offered: bool, k: OptionKind)
    ensures Ranked(IfOffered(offered, k)) && RanksWithin(IfOffered(offered, k), Rank(k), Rank(k) + 1)
  {
  }

  /**
   * Banner is offered exactly when the fetched user has a banner, Statuses
   * exactly for a guild member and Bot exactly for a bot account.
   */
  lemma DropdownKindsExactly(user: User, fetched: Option<FetchedUser>)
    ensures BannerOption in DropdownKinds(user, fetched) <==> HasBanner(fetched)
    ensures StatusOption in DropdownKinds(user, fetched) <==> user.isMember
    ensures BotOption in DropdownKinds(user, fetched) <==> user.bot
  {
    var head := [IndexOption, AvatarOption, ReviewsOption];
    var banner := IfOffered(HasBanner(fetched), BannerOption);
    var status := IfOffered(user.isMember, StatusOption);
    var bot := IfOffered(user.bot, BotOption);
    assert DropdownKinds(user, fetched) == head + banner + status + bot;
  }

  /** The fixed first three kinds are ranked below Banner. */
  lemma HeadRanked()
    ensures Ranked([IndexOption, AvatarOption, ReviewsOption])
    ensures RanksWithin([IndexOption, AvatarOption, ReviewsOption], 0, 3)
  {
  }

  /** The offered kinds come each at most once, in the fixed order of the dropdown. */
  lemma DropdownKindsRanked(user: User, fetched: Option<FetchedUser>)
    ensures Ranked(DropdownKinds(user, fetched))
  {
    var head := [IndexOption, AvatarOption, ReviewsOption];
    var banner := IfOffered(HasBanner(fetched), BannerOption);
    var status := IfOffered(user.isMember, StatusOption);
    var bot := IfOffered(user.bot, BotOption);
    HeadRanked();
    OfferedRanked(HasBanner(fetched), BannerOption);
    OfferedRanked(user.isMember, StatusOption);
    OfferedRanked(user.bot, BotOption);
    RankedAppend(head, banner, 3, 4);
    RankedAppend(head + banner, status, 4, 5);
    RankedAppend(head + banner + status, bot, 5, 6);
  }

  function OptionsOf(user: User, kinds: seq<OptionKind>): seq<SelectOption> {
    seq(|kinds|, i requires 0 <= i < |kinds| => OptionFor(user, kinds[i]))
  }

  lemma OptionsOfSnoc(user: User, kinds: seq<OptionKind>, k: OptionKind)
    ensures OptionsOf(user, kinds + [k]) == OptionsOf(user, kinds) + [OptionFor(user, k)]
  {
  }

  /** The `SelectOption`s of the dropdown, one per offered kind. */
  function DropdownOptions(user: User, fetched: Option<FetchedUser>): seq<SelectOption> {
    OptionsOf(user, DropdownKinds(user, fetched))
  }

  /** Which response `callback` gives for a selected value. */
  datatype Response = IndexEmbed | AvatarEmbed | BannerEmbed | BotEmbed | StatusEmbed | ReviewPath

  function Dispatch(value: string): Response {
    if value == "index" then IndexEmbed
    else if value == "avatar" then AvatarEmbed
    else if value == "banner" then BannerEmbed
    else if value == "bot" then BotEmbed
    else if value == "status" then StatusEmbed
    else ReviewPath
  }

  function ResponseFor(k: OptionKind): Response {
    match k
    case IndexOption => IndexEmbed
    case AvatarOption => AvatarEmbed
    case ReviewsOption => ReviewPath
    case BannerOption => BannerEmbed
    case StatusOption => StatusEmbed
    case BotOption => BotEmbed
  }

  /**
   * Each offered option is dispatched to its own response: Reviews is the
   * only one that takes the review path, and no two kinds share a response.
   */
  lemma DispatchOfOption(k: OptionKind)
    ensures Dispatch(ValueText(k)) == ResponseFor(k)
    ensures forall k2 :: ResponseFor(k2) == ResponseFor(k) ==> k2 == k
  {
    match k
    case IndexOption =>
    case AvatarOption =>
      assert "avatar"[0] != "index"[0];
    case ReviewsOption =>
    case BannerOption =>
      assert "banner"[0] != "avatar"[0] && "banner"[0] != "index"[0];
    case StatusOption =>
      assert "status"[0] != "avatar"[0] && "status"[0] != "index"[0] && "status"[0] != "banner"[0];
    case BotOption =>
  }

  /** Values the dropdown never offers fall through to the review path. */
  lemma DispatchOtherwise(value: string)
    requires forall k :: value != ValueText(k)
    ensures Dispatch(value) == ReviewPath
  {
    assert value != ValueText(IndexOption) && value != ValueText(AvatarOption) && value != ValueText(BannerOption);
    assert value != ValueText(BotOption) && value != ValueText(StatusOption);
  }

  /** The Markdown links of `avatar_response`: Default, then Avatar if set, then Guild for a member with one. */
  function AvatarLinks(user: User): (r: seq<string>)
    ensures |r| == 1 + (if user.avatar.Some? then 1 else 0) + (if user.isMember && user.guildAvatar.Some? then 1 else 0)
    ensures r[0] == "[Default](" + user.defaultAvatar + ")"
    ensures user.avatar.Some? ==> r[1] == "[Avatar](" + user.avatar.value + ")"
    ensures user.isMember && user.guildAvatar.Some? ==> r[|r| - 1] == "[Guild](" + user.guildAvatar.value + ")"
  {
    var r := ["[Default](" + user.defaultAvatar + ")"]
      + (if user.avatar.Some? then ["[Avatar](" + user.avatar.value + ")"] else [])
      + (if user.isMember && user.guildAvatar.Some? then ["[Guild](" + user.guildAvatar.value + ")"] else []);
    r
  }

  /** The avatar embed's description: the links joined by `human_join(final="and")`. */
  function AvatarDescription(user: User): (r: string)
    ensures user.avatar.None? && !(user.isMember && user.guildAvatar.Some?) ==> r == AvatarLinks(user)[0]
  {
    Functions.HumanJoin(AvatarLinks(user), ", ", "and", true)
  }

  /** The part of an avatar embed the model keeps. */
  datatype Embed = Embed(description: string)

  /** `UserDropdown`: the offered options and the avatar embed cached after its first use. */
  class UserDropdown {
    const user: User
    const fetched: Option<FetchedUser>
    const options: seq<SelectOption>
    var avatarCache: Option<Embed>

    constructor(user: User, fetched: Option<FetchedUser>)
      ensures this.user == user && this.fetched == fetched
      ensures options == DropdownOptions(user, fetched)
      ensures avatarCache == None
    {
      this.user := user;
      this.fetched := fetched;
      var opts := BuildOptions(user, fetched);
      options := opts;
      avatarCache := None;
    }

    /** The option list `__init__` appends, one kind after the other. */
    static method BuildOptions(user: User, fetched: Option<FetchedUser>) returns (opts: seq<SelectOption>)
      ensures opts == DropdownOptions(user, fetched)
    {
      ghost var kinds := [IndexOption, AvatarOption, ReviewsOption];
      opts := [OptionFor(user, IndexOption), OptionFor(user, AvatarOption), OptionFor(user, ReviewsOption)];
      assert opts == OptionsOf(user, kinds);
      if fetched.Some? && fetched.value.banner.Some? {
        OptionsOfSnoc(user, kinds, BannerOption);
        opts := opts + [OptionFor(user, BannerOption)];
      }
      kinds := kinds + IfOffered(HasBanner(fetched), BannerOption);
      if user.isMember {
        OptionsOfSnoc(user, kinds, StatusOption);
        opts := opts + [OptionFor(user, StatusOption)];
      }
      kinds := kinds + IfOffered(user.isMember, StatusOption);
      if user.bot {
        OptionsOfSnoc(user, kinds, BotOption);
        opts := opts + [OptionFor(user, BotOption)];
      }
      kinds := kinds + IfOffered(user.bot, BotOption);
    }

    /** `avatar_response`: the cached embed if there is one, otherwise a new one that is then cached. */
    method AvatarResponse() returns (e: Embed)
      modifies this`avatarCache
      ensures old(avatarCache).Some? ==> e == old(avatarCache).value && avatarCache == old(avatarCache)
      ensures old(avatarCache).None? ==> e == Embed(AvatarDescription(user)) && avatarCache == Some(e)
    {
      if avatarCache.Some? {
        return avatarCache.value;
      }
      e := Embed(AvatarDescription(user));
      avatarCache := Some(e);
    }
  }

  /** Two successive avatar responses give the same embed. */
  method AvatarResponseStable(d: UserDropdown) returns (a: Embed, b: Embed)
    modifies d`avatarCache
    ensures a == b
  {
    a := d.AvatarResponse();
    b := d.AvatarResponse();
  }

  // ------------------------------------------------------------------ badges

  /** A key of the badge table: a flag name or a user id. */
  datatype FlagKey = Name(name: string) | Id(id: int)

  /** The values `get_badges` computes and lays over the public flags. */
  function NewValues(memberId: int, owner: bool, serverOwner: bool, booster: bool, nitro: bool): map<FlagKey, bool> {
    map[Id(memberId) := true, Name("owner") := owner, Name("server_owner") := serverOwner,
        Name("booster") := booster, Name("nitro") := nitro]
  }

  /** `public_flags.update(new_values)`: computed values win. */
  function Merged(public: map<FlagKey, bool>, computed: map<FlagKey, bool>): (r: map<FlagKey, bool>)
    ensures r.Keys == public.Keys + computed.Keys
    ensures forall k :: k in computed ==> r[k] == computed[k]
    ensures forall k :: k in public && k !in computed ==> r[k] == public[k]
  {
    public + computed
  }

  /** The badge texts of the flags, in table order, whose merged value is set; missing keys are skipped. */
  function Badges(table: seq<(FlagKey, string)>, flags: map<FlagKey, bool>): seq<string> {
    if table == [] then []
    else
      var (key, text) := table[|table| - 1];
      Badges(table[..|table| - 1], flags) + (if key in flags && flags[key] then [text] else [])
  }

  /** Badges follow table order: the badges of a split table are the two parts' badges in sequence. */
  lemma {:induction false} BadgesAppend(t1: seq<(FlagKey, string)>, t2: seq<(FlagKey, string)>, flags: map<FlagKey, bool>)
    ensures Badges(t1 + t2, flags) == Badges(t1, flags) + Badges(t2, flags)
    decreases |t2|
  {
    if t2 != [] {
      var init := t2[..|t2| - 1];
      assert (t1 + t2)[..|t1 + t2| - 1] == t1 + init;
      BadgesAppend(t1, init, flags);
    } else {
      assert t1 + t2 == t1;
    }
  }

  /** A text is a badge exactly when some table entry with that text has a set flag. */
  lemma {:induction false} BadgesExactly(table: seq<(FlagKey, string)>, flags: map<FlagKey, bool>, text: string)
    ensures text in Badges(table, flags) <==>
      exists i :: 0 <= i < |table| && table[i].1 == text && table[i].0 in flags && flags[table[i].0]
  {
    if table != [] {
      var init := table[..|table| - 1];
      BadgesExactly(init, flags, text);
      if text in Badges(table, flags) && text !in Badges(init, flags) {
        assert table[|table| - 1].1 == text;
      }
      if exists i :: 0 <= i < |table| && table[i].1 == text && table[i].0 in flags && flags[table[i].0] {
        var i :| 0 <= i < |table| && table[i].1 == text && table[i].0 in flags && flags[table[i].0];
        if i < |table| - 1 {
          assert init[i] == table[i];
        }
      }
    }
  }

  /**
   * `get_badges`: the loop over the badge table (USER_FLAGS) against the
   * public flags updated with the computed values.
   */
  method GetBadges(table: seq<(FlagKey, string)>, public: map<FlagKey, bool>, memberId: int,
                   owner: bool, serverOwner: bool, booster: bool, nitro: bool) returns (badges: seq<string>)
    ensures badges == Badges(table, Merged(public, NewValues(memberId, owner, serverOwner, booster, nitro)))
  {
    var flags := public + NewValues(memberId, owner, serverOwner, booster, nitro);
    badges := [];
    for i := 0 to |table|
      invariant badges == Badges(table[..i], flags)
    {
      assert table[..i + 1][..i] == table[..i];
      var (flag, text) := table[i];
      if flag !in flags {
        continue;
      }
      if flags[flag] {
        badges := badges + [text];
      }
    }
    assert table[..|table|] == table;
  }

  // ---------------------------------------------------------------- join_pos

  /** `members.index(member)`: the first position holding `member`. */
  function IndexOf(members: seq<int>, member: int): (i: nat)
    requires member in members
    ensures i < |members| && members[i] == member
    ensures forall j :: 0 <= j < i ==> members[j] != member
  {
    if members[0] == member then 0 else 1 + IndexOf(members[1..], member)
  }

  /**
   * `join_pos`: the 1-based position of `member` in the guild's members
   * sorted by join time (the sorting is the library's; `sorted` is that list).
   */
  function JoinPos(sorted: seq<int>, member: int): (r: nat)
    requires member in sorted
    ensures 1 <= r <= |sorted|
    ensures sorted[r - 1] == member && member !in sorted[..r - 1]
  {
    IndexOf(sorted, member) + 1
  }

  // ----------------------------------------------------------- format_status

  /** `format_status`: "on " is prefixed exactly for "dnd". */
  function FormatStatus(status: string): (r: string)
    ensures |r| == |status| + (if status == "dnd" then 3 else 0)
    ensures r[|r| - |status|..] == status
  {
    (if status == "dnd" then "on " else "") + status
  }

  /**
   * For every status Discord reports, the info view's text starts with
   * "on " exactly for "dnd" and always ends with the status itself.
   */
  lemma FormatStatusReadable(status: string)
    requires Functions.DiscordStatus(status)
    ensures var r := FormatStatus(status);
      && ((|r| >= 3 && r[..3] == "on ") <==> status == "dnd")
      && r[|r| - |status|..] == status
  {
    FormatStatusAgrees(status);
    Functions.FormatStatusOfDiscordStatus(status);
  }

  /** The info view's `format_status` agrees with the helper of utils/functions.py on every status. */
  lemma FormatStatusAgrees(raw: string)
    ensures FormatStatus(raw) == Functions.FormatStatus(Functions.Member(Functions.StatusOf(raw), raw))
  {
  }

  // ------------------------------------------------------------- emoji tally

  datatype Emoji = Emoji(animated: bool, available: bool)

  /** The four counters of the server view's emoji `Counter`. */
  datatype EmojiStats = EmojiStats(regular: nat, animated: nat, disabled: nat, animatedDisabled: nat)

  function B2N(b: bool): nat { if b then 1 else 0 }

  function Tally(emojis: seq<Emoji>): EmojiStats {
    if emojis == [] then EmojiStats(0, 0, 0, 0)
    else
      var s := Tally(emojis[..|emojis| - 1]);
      var e := emojis[|emojis| - 1];
      if e.animated then s.(animated := s.animated + 1, animatedDisabled := s.animatedDisabled + B2N(!e.available))
      else s.(regular := s.regular + 1, disabled := s.disabled + B2N(!e.available))
  }

  /** Every emoji is counted once, and only counted emojis can be disabled. */
  lemma {:induction false} TallyBounds(emojis: seq<Emoji>)
    ensures var s := Tally(emojis);
      s.regular + s.animated == |emojis| && s.disabled <= s.regular && s.animatedDisabled <= s.animated
  {
    if emojis != [] {
      TallyBounds(emojis[..|emojis| - 1]);
    }
  }

  /** The emoji loop of `server_info`. */
  method EmojiTally(emojis: seq<Emoji>) returns (stats: EmojiStats)
    ensures stats == Tally(emojis)
  {
    stats := EmojiStats(0, 0, 0, 0);
    for i := 0 to |emojis|
      invariant stats == Tally(emojis[..i])
    {
      assert emojis[..i + 1][..i] == emojis[..i];
      var emoji := emojis[i];
      if emoji.animated {
        stats := stats.(animated := stats.animated + 1);
        stats := stats.(animatedDisabled := stats.animatedDisabled + B2N(!emoji.available));
      } else {
        stats := stats.(regular := stats.regular + 1);
        stats := stats.(disabled := stats.disabled + B2N(!emoji.available));
      }
    }
    assert emojis[..|emojis|] == emojis;
  }

  /** `f"{count}/{limit}{tail}"`. */
  function CountLine(count: nat, limit: nat, tail: string): string {
    NatToString(count) + "/" + NatToString(limit) + tail
  }

  function DisabledLine(disabled: nat, animatedDisabled: nat): string {
    "Disabled: " + NatToString(disabled) + " regular, " + NatToString(animatedDisabled) + " animated\n"
  }

  /** The "Emojis" field text. */
  function EmojiField(s: EmojiStats, limit: nat): string {
    var fmt := CountLine(s.regular, limit, " Regular\n") + CountLine(s.animated, limit, " Animated\n");
    if s.disabled != 0 || s.animatedDisabled != 0 then fmt + DisabledLine(s.disabled, s.animatedDisabled)
    else fmt
  }

  function Newlines(s: string): nat {
    if s == [] then 0 else Newlines(s[..|s| - 1]) + (if s[|s| - 1] == '\n' then 1 else 0)
  }

  lemma {:induction false} NewlinesAppend(a: string, b: string)
    ensures Newlines(a + b) == Newlines(a) + Newlines(b)
    decreases |b|
  {
    if b != [] {
      assert (a + b)[..|a + b| - 1] == a + b[..|b| - 1];
      NewlinesAppend(a, b[..|b| - 1]);
    } else {
      assert a + b == a;
    }
  }

  lemma {:induction false} NoNewlines(t: string)
    requires '\n' !in t
    ensures Newlines(t) == 0
  {
    if t != [] {
      assert t[|t| - 1] in t;
      NoNewlines(t[..|t| - 1]);
    }
  }

  /** A line: text without a newline, then a newline. */
  lemma OneNewline(t: string, body: string)
    requires '\n' !in body && t == body + "\n"
    ensures Newlines(t) == 1
  {
    assert t[..|t| - 1] == body;
    NoNewlines(body);
  }

  lemma CountLineNewlines(count: nat, limit: nat, tail: string, body: string)
    requires '\n' !in body && tail == body + "\n"
    ensures Newlines(CountLine(count, limit, tail)) == 1
  {
    NoNewlines(NatToString(count));
    NoNewlines(NatToString(limit));
    NoNewlines("/");
    OneNewline(tail, body);
    NewlinesAppend(NatToString(count), "/");
    NewlinesAppend(NatToString(count) + "/", NatToString(limit));
    NewlinesAppend(NatToString(count) + "/" + NatToString(limit), tail);
  }

  lemma DisabledLineNewlines(disabled: nat, animatedDisabled: nat)
    ensures Newlines(DisabledLine(disabled, animatedDisabled)) == 1
  {
    var d := NatToString(disabled);
    var ad := NatToString(animatedDisabled);
    NoNewlines(d);
    NoNewlines(ad);
    NoNewlines("Disabled: ");
    NoNewlines(" regular, ");
    OneNewline(" animated\n", " animated");
    NewlinesAppend("Disabled: ", d);
    NewlinesAppend("Disabled: " + d, " regular, ");
    NewlinesAppend("Disabled: " + d + " regular, ", ad);
    NewlinesAppend("Disabled: " + d + " regular, " + ad, " animated\n");
  }

  /** The field has the "Disabled:" third line exactly when some emoji is disabled. */
  lemma EmojiFieldLines(s: EmojiStats, limit: nat)
    ensures Newlines(EmojiField(s, limit)) == if s.disabled != 0 || s.animatedDisabled != 0 then 3 else 2
  {
    var regular := CountLine(s.regular, limit, " Regular\n");
    var animated := CountLine(s.animated, limit, " Animated\n");
    CountLineNewlines(s.regular, limit, " Regular\n", " Regular");
    CountLineNewlines(s.animated, limit, " Animated\n", " Animated");
    NewlinesAppend(regular, animated);
    if s.disabled != 0 || s.animatedDisabled != 0 {
      DisabledLineNewlines(s.disabled, s.animatedDisabled);
      NewlinesAppend(regular + animated, DisabledLine(s.disabled, s.animatedDisabled));
    }
  }

  // ------------------------------------------------------- format and quality

  /** `FormatDropdown`'s choices: gif only for animated assets. */
  function FormatChoices(animated: bool): (r: seq<string>)
    ensures |r| == if animated then 5 else 4
    ensures r[..4] == ["webp", "jpeg", "jpg", "png"]
    ensures "gif" in r <==> animated
  {
    var r := ["webp", "jpeg", "jpg", "png"] + (if animated then ["gif"] else []);
    assert r[..4] == ["webp", "jpeg", "jpg", "png"];
    r
  }

  /** `QualityDropdown`'s sizes. */
  function QualitySizes(): seq<string> {
    ["16", "32", "64", "128", "256", "512", "1024", "2048", "4096"]
  }

  /** The sizes as numbers. */
  function SizeValues(): seq<nat> {
    [16, 32, 64, 128, 256, 512, 1024, 2048, 4096]
  }

  /** Each size value is 2^(i + 4), doubling from one to the next. */
  lemma {:induction false} SizeValuesArePowers(i: nat)
    requires i < 9
    ensures SizeValues()[i] == Pow2(i + 4)
  {
    if i == 0 {
      assert Pow2(4) == 16;
    } else {
      SizeValuesArePowers(i - 1);
      assert SizeValues()[i] == 2 * SizeValues()[i - 1];
    }
  }

  lemma SmallSizes()
    ensures NatToString(16) == "16" && NatToString(32) == "32" && NatToString(64) == "64"
  {
    assert NatToString(1) == "1" && NatToString(3) == "3" && NatToString(6) == "6";
  }

  lemma MiddleSizes()
    ensures NatToString(128) == "128" && NatToString(256) == "256" && NatToString(512) == "512"
  {
    assert NatToString(12) == "12" && NatToString(25) == "25" && NatToString(51) == "51";
  }

  lemma LargeSizes()
    ensures NatToString(1024) == "1024" && NatToString(2048) == "2048" && NatToString(4096) == "4096"
  {
    assert NatToString(102) == "102" && NatToString(204) == "204" && NatToString(409) == "409";
  }

  /** Each size text is the decimal text of its value. */
  lemma SizeText(i: nat)
    requires i < 9
    ensures QualitySizes()[i] == NatToString(SizeValues()[i])
  {
    if i < 3 {
      SmallSizes();
    } else if i < 6 {
      MiddleSizes();
    } else {
      LargeSizes();
    }
  }

  /** The sizes are the decimal texts of the powers of two from 2^4 = 16 to 2^12 = 4096. */
  lemma QualitySizesArePowers()
    ensures |QualitySizes()| == 9
    ensures forall i :: 0 <= i < 9 ==> QualitySizes()[i] == NatToString(Pow2(i + 4))
  {
    forall i | 0 <= i < 9
      ensures QualitySizes()[i] == NatToString(Pow2(i + 4))
    {
      SizeValuesArePowers(i);
      SizeText(i);
    }
  }

  /** The quality options: label `<size>px`, value the size. */
  function QualityOptions(): (r: seq<SelectOption>)
    ensures |r| == 9
    ensures forall i :: 0 <= i < 9 ==> r[i].value == QualitySizes()[i] && r[i].title == QualitySizes()[i] + "px"
  {
    var sizes := QualitySizes();
    seq(9, i requires 0 <= i < 9 => SelectOption(sizes[i] + "px", "", "", sizes[i]))
  }
}
