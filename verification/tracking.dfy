/**
 * The bot's tracking handlers: parsing a "link | min | max" message,
 * validating the link, the per-user `tracking_states` dictionary that
 * holds a validated link while the bot asks for a name, and the numbered
 * selection of an existing tracking.
 */
module Tracking {
  import opened Wrappers
  import opened PyStr
  import Seqs

  // ---------------------------------------------------------------------
  // The link message
  // ---------------------------------------------------------------------

  /** The pieces of a link message before validation. */
  datatype LinkInput = LinkInput(link: Option<string>, minPrice: Option<nat>, maxPrice: Option<nat>)

  /** A price piece: its value when it is all digits, else None. */
  function PricePart(parts: seq<string>, k: nat): (r: Option<nat>)
    ensures r.Some? <==> k < |parts| && IsDigits(parts[k])
    ensures r.Some? ==> r.value == DigitsValue(parts[k])
  {
    if k < |parts| && IsDigits(parts[k]) then Some(DigitsValue(parts[k])) else None
  }

  /**
   * The split of `handle_add_tracking_link`: with a '|' the stripped
   * pieces are the link (None when blank), the lower bound and the upper
   * bound; without one the whole stripped text is the link.
   */
  function SplitInput(text: string): (r: LinkInput)
    ensures '|' !in Strip(text) ==> r == LinkInput(Some(Strip(text)), None, None)
    ensures '|' in Strip(text) ==>
      var parts := Seqs.Map(Strip, Split(Strip(text), '|'));
      && r.link == (if parts[0] != [] then Some(parts[0]) else None)
      && r.minPrice == PricePart(parts, 1)
      && r.maxPrice == PricePart(parts, 2)
  {
    var t := Strip(text);
    if '|' in t then
      var parts := Seqs.Map(Strip, Split(t, '|'));
      LinkInput(if parts[0] != [] then Some(parts[0]) else None, PricePart(parts, 1), PricePart(parts, 2))
    else LinkInput(Some(t), None, None)
  }

  /** The link a tracking may hold: contains "avito.ru" in any case and starts with http:// or https://. */
  predicate ValidLink(link: string) {
    && link != []
    && Contains(Lower(link), "avito.ru")
    && (StartsWith(link, "http://") || StartsWith(link, "https://"))
  }

  /** A link waiting for its name, with the price bounds given with it. */
  datatype Pending = Pending(link: string, minPrice: Option<nat>, maxPrice: Option<nat>)

  /** What `handle_add_tracking_link` answers. */
  datatype LinkReply =
    | NoSubscription       // "only with an active subscription"
    | NotAvito             // blank, or no "avito.ru"
    | NotFullLink          // no http:// or https:// prefix
    | AskName(pending: Pending)

  /** Leading '@' characters and surrounding whitespace removed. */
  function CleanLink(link: string): string {
    Strip(LStripChar(link, '@'))
  }

  /** The validation of the parsed pieces. */
  function ValidateLink(input: LinkInput): (r: LinkReply)
    ensures !r.NoSubscription?
    ensures r.AskName? ==> && input.link.Some? && r.pending.link == CleanLink(input.link.value)
                           && r.pending.minPrice == input.minPrice && r.pending.maxPrice == input.maxPrice
    ensures r.AskName? <==> input.link.Some? && ValidLink(CleanLink(input.link.value))
    ensures r.NotFullLink? ==> input.link.Some? && CleanLink(input.link.value) != []
                               && Contains(Lower(CleanLink(input.link.value)), "avito.ru")
  {
    // an empty link skips the cleaning in the source; cleaning "" gives "" anyway
    var link := if input.link.Some? then CleanLink(input.link.value) else [];
    if link == [] || !Contains(Lower(link), "avito.ru") then NotAvito
    else if !(StartsWith(link, "http://") || StartsWith(link, "https://")) then NotFullLink
    else AskName(Pending(link, input.minPrice, input.maxPrice))
  }

  /** `handle_add_tracking_link` on a message from a user with or without a subscription. */
  function LinkMessage(hasSubscription: bool, text: string): (r: LinkReply)
    ensures !hasSubscription ==> r == NoSubscription
    ensures r.AskName? ==> ValidLink(r.pending.link)
  {
    if !hasSubscription then NoSubscription else ValidateLink(SplitInput(text))
  }

  /** The message a user types for a link with both bounds. */
  function FormatInput(link: string, minPrice: nat, maxPrice: nat): string {
    link + "|" + NatToString(minPrice) + "|" + NatToString(maxPrice)
  }

  /** Digits contain no '|'. */
  lemma DigitsNoBar(s: string)
    requires IsDigits(s)
    ensures '|' !in s
  {
  }

  /** Three pieces joined with '|'. */
  lemma JoinThree(x: string, y: string, z: string)
    ensures Join([x, y, z], '|') == x + "|" + y + "|" + z
  {
    assert [x, y, z][1..] == [y, z];
    assert [y, z][1..] == [z];
    assert Join([z], '|') == z;
    assert Join([y, z], '|') == y + ['|'] + z;
    assert Join([x, y, z], '|') == x + ['|'] + (y + ['|'] + z);
  }

  /** The formatted message splits back into its three pieces. */
  lemma SplitFormatted(link: string, a: string, b: string)
    requires '|' !in link && IsDigits(a) && IsDigits(b)
    ensures Split(link + "|" + a + "|" + b, '|') == [link, a, b]
  {
    DigitsNoBar(a);
    DigitsNoBar(b);
    JoinThree(link, a, b);
    SplitJoin([link, a, b], '|');
  }

  /** The three pieces are already stripped. */
  lemma StripPieces(link: string, a: string, b: string)
    requires link != [] && !IsSpace(link[0]) && !IsSpace(link[|link| - 1])
    requires IsDigits(a) && IsDigits(b)
    ensures Seqs.Map(Strip, [link, a, b]) == [link, a, b]
  {
    StripUnchanged(link);
    StripDigits(a);
    StripDigits(b);
  }

  /** The formatted message is already stripped and contains a '|'. */
  lemma FormattedText(link: string, a: string, b: string)
    requires link != [] && !IsSpace(link[0]) && IsDigits(a) && IsDigits(b)
    ensures Strip(link + "|" + a + "|" + b) == link + "|" + a + "|" + b
    ensures '|' in link + "|" + a + "|" + b
  {
    var text := link + "|" + a + "|" + b;
    assert text[0] == link[0];
    assert text[|text| - 1] == b[|b| - 1];
    assert IsAsciiDigit(b[|b| - 1]);
    StripUnchanged(text);
    assert text[|link|] == '|';
  }

  /** The formatted message parses into the link and both bounds. */
  lemma SplitFormattedInput(link: string, minPrice: nat, maxPrice: nat)
    requires '|' !in link && link != [] && !IsSpace(link[0]) && !IsSpace(link[|link| - 1])
    ensures SplitInput(FormatInput(link, minPrice, maxPrice)) == LinkInput(Some(link), Some(minPrice), Some(maxPrice))
  {
    var a, b := NatToString(minPrice), NatToString(maxPrice);
    var text := FormatInput(link, minPrice, maxPrice);
    FormattedText(link, a, b);
    SplitFormatted(link, a, b);
    StripPieces(link, a, b);
    var parts := Seqs.Map(Strip, Split(text, '|'));
    assert parts == [link, a, b];
    assert PricePart(parts, 1) == Some(minPrice) && PricePart(parts, 2) == Some(maxPrice);
  }

  /** A valid link without surrounding whitespace passes validation unchanged. */
  lemma ValidateCleanLink(link: string, minPrice: Option<nat>, maxPrice: Option<nat>)
    requires ValidLink(link) && !IsSpace(link[|link| - 1])
    ensures ValidateLink(LinkInput(Some(link), minPrice, maxPrice)) == AskName(Pending(link, minPrice, maxPrice))
  {
    assert link[0] == 'h';
    assert LStripChar(link, '@') == link;
    StripUnchanged(link);
    assert CleanLink(link) == link;
  }

  /**
   * The message format round-trips: a valid link without '|' and without
   * trailing whitespace, sent with two bounds, is accepted with exactly
   * that link and those bounds.
   */
  lemma FormatRoundTrip(link: string, minPrice: nat, maxPrice: nat)
    requires ValidLink(link) && '|' !in link && !IsSpace(link[|link| - 1])
    ensures LinkMessage(true, FormatInput(link, minPrice, maxPrice)) == AskName(Pending(link, Some(minPrice), Some(maxPrice)))
  {
    assert link[0] == 'h';
    SplitFormattedInput(link, minPrice, maxPrice);
    ValidateCleanLink(link, Some(minPrice), Some(maxPrice));
  }

  // ---------------------------------------------------------------------
  // tracking_states
  // ---------------------------------------------------------------------

  /** What `complete_tracking_addition` passes to `add_tracking`. */
  datatype NewTracking = NewTracking(user: int, link: string, name: Option<string>, minPrice: Option<nat>, maxPrice: Option<nat>)

  /** What the name handler does with a message. */
  datatype NameReply =
    | Skipped                          // not waiting for a name, an empty text or a command
    | NameTooLong                      // more than 100 characters after stripping
    | Completed(record: Option<NewTracking>)

  /** The longest name a tracking may have. */
  const MaxNameLength: nat := 100

  /** The commands the name handler lets through to other handlers. */
  predicate IsCommand(text: string) {
    StartsWith(text, "/start") || StartsWith(text, "/help") || StartsWith(text, "/admin")
  }

  /** The module-level `tracking_states` dictionary: user id to the link waiting for a name. */
  class TrackingStates {
    var states: map<int, Pending>

    /** Every link waiting for a name passed validation. */
    ghost predicate Valid()
      reads this
    {
      forall user :: user in states ==> ValidLink(states[user].link)
    }

    constructor()
      ensures states == map[] && Valid()
    {
      states := map[];
    }

    /** `handle_add_tracking_link`: an accepted link replaces whatever the user had pending. */
    method AddLink(user: int, hasSubscription: bool, text: string) returns (reply: LinkReply)
      requires Valid()
      modifies this
      ensures Valid()
      ensures reply == LinkMessage(hasSubscription, text)
      ensures reply.AskName? ==> states == old(states)[user := reply.pending]
      ensures !reply.AskName? ==> states == old(states)
    {
      reply := LinkMessage(hasSubscription, text);
      if reply.AskName? {
        var pending := reply.pending;
        assert ValidLink(pending.link);
        states := states[user := pending];
        forall u | u in states
          ensures ValidLink(states[u].link)
        {
          if u != user {
            assert states[u] == old(states)[u];
          }
        }
      }
    }

    /** `complete_tracking_addition`: takes the user's entry out and builds the record to persist. */
    method Complete(user: int, name: Option<string>) returns (record: Option<NewTracking>)
      requires Valid()
      modifies this
      ensures Valid()
      ensures user !in old(states) ==> record.None? && states == old(states)
      ensures user in old(states) ==>
        && record == Some(NewTracking(user, old(states)[user].link, name, old(states)[user].minPrice, old(states)[user].maxPrice))
        && states == old(states) - {user}
      ensures record.Some? ==> ValidLink(record.value.link)
    {
      if user !in states {
        return None;
      }
      var pending := states[user];
      states := states - {user};
      return Some(NewTracking(user, pending.link, name, pending.minPrice, pending.maxPrice));
    }

    /** `handle_tracking_name_input`: a stripped name of at most 100 characters completes the addition. */
    method NameInput(user: int, text: string) returns (reply: NameReply)
      requires Valid()
      modifies this
      ensures Valid()
      ensures user !in old(states) || text == [] || IsCommand(text) ==> reply == Skipped && states == old(states)
      ensures reply == NameTooLong <==> user in old(states) && text != [] && !IsCommand(text) && |Strip(text)| > MaxNameLength
      ensures reply == NameTooLong ==> states == old(states)
      ensures reply.Completed? ==> && states == old(states) - {user} && reply.record.Some?
                                   && reply.record.value.name == Some(Strip(text))
                                   && |Strip(text)| <= MaxNameLength
    {
      if user !in states || text == [] || IsCommand(text) {
        return Skipped;
      }
      var name := Strip(text);
      if |name| > MaxNameLength {
        return NameTooLong;
      }
      var record := Complete(user, Some(name));
      return Completed(record);
    }

    /** `handle_no_name_tracking`: completes the addition without a name. */
    method NoName(user: int) returns (record: Option<NewTracking>)
      requires Valid()
      modifies this
      ensures Valid()
      ensures record.Some? <==> user in old(states)
      ensures record.Some? ==> record.value.name.None? && record.value.link == old(states)[user].link
      ensures states == old(states) - {user}
    {
      if user !in states {
        return None;
      }
      record := Complete(user, None);
    }

    /** `handle_cancel_tracking`: the user's entry is removed. */
    method Cancel(user: int)
      requires Valid()
      modifies this
      ensures Valid()
      ensures states == old(states) - {user}
    {
      if user in states {
        states := states - {user};
      }
    }
  }

  // ---------------------------------------------------------------------
  // Numbered selection
  // ---------------------------------------------------------------------

  /** A stored tracking, as far as the selection uses it. */
  datatype TrackingRow = TrackingRow(id: string, isActive: bool)

  /** The archived trackings, in the order the store lists them. */
  function Archived(all: seq<TrackingRow>): (r: seq<TrackingRow>)
    ensures forall k :: 0 <= k < |r| ==> !r[k].isActive
  {
    Seqs.Filter((t: TrackingRow) => !t.isActive, all)
  }

  /** What `handle_tracking_number` answers. */
  datatype Selection =
    | Ignored                            // no subscription, or number 0
    | NotFound(number: nat)
    | Selected(number: nat, row: TrackingRow)

  /**
   * `handle_tracking_number` on an all-digits message: number `n` picks the
   * n-th tracking of the active list followed by the archived ones.
   */
  function SelectTracking(text: string, hasSubscription: bool, active: seq<TrackingRow>, all: seq<TrackingRow>): (r: Selection)
    requires IsDigits(text)
    ensures !hasSubscription || DigitsValue(text) < 1 ==> r == Ignored
    ensures r.NotFound? <==> hasSubscription && DigitsValue(text) > |active| + |Archived(all)|
    ensures r.Selected? ==> && r.number == DigitsValue(text) && 1 <= r.number <= |active| + |Archived(all)|
                            && (r.number <= |active| ==> r.row == active[r.number - 1])
                            && (r.number > |active| ==> r.row == Archived(all)[r.number - 1 - |active|] && !r.row.isActive)
  {
    var number := DigitsValue(text);
    if !hasSubscription || number < 1 then Ignored
    else
      var ordered := active + Archived(all);
      if number > |ordered| then NotFound(number) else Selected(number, ordered[number - 1])
  }

  /** Every tracking can be reached: sending its position selects it. */
  lemma SelectEveryPosition(active: seq<TrackingRow>, all: seq<TrackingRow>, k: nat)
    requires k < |active| + |Archived(all)|
    ensures SelectTracking(NatToString(k + 1), true, active, all) == Selected(k + 1, (active + Archived(all))[k])
  {
  }
}
