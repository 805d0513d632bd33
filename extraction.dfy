/** What the room-extraction loops of app.js print, as functions of what
    the page answers to each element lookup. Browser lookups are inputs:
    a lookup that finds its element gives `Some(text)`, one that does not
    gives `None`; a list query gives the texts of the elements it found, in
    document order. */
module Extraction {
  import opened Wrappers
  import opened Normalize

  // ---------------------------------------------------------------------
  // Records and console lines

  datatype SugarBeachRecord = SugarBeachRecord(
    roomName: string, bed: string, guests: string, size: string, price: string)

  datatype GraceBayRecord = GraceBayRecord(
    roomName: string, bed: string, guests: string, size: string,
    beachEscapes: string, standard: string)

  datatype NizucRecord = NizucRecord(roomName: string, details: string, price: string)

  datatype WymaraRecord = WymaraRecord(
    roomName: string, impInfo: string, details: string, price: string)

  datatype Rate = Rate(avgPrice: string, total: string)

  datatype CancunRecord = CancunRecord(roomName: string, roomOnly: Rate, allInclusive: Rate)

  /** The lookups of one sugar_beach room, in the order the loop makes them. */
  datatype Lookup = RoomName | Guests | Bed | Area | Size | Price

  /** One line a run writes with `console.log` or `console.error`. */
  datatype Line =
    | StayWindow(todaysDate: string, tomorrow: string)
    | HotelName(name: string)
    | Availability(text: string)
    | NoAvailabilityBanner
    | SugarBeachRoom(sugarBeach: SugarBeachRecord)
    | GraceBayRoom(graceBay: GraceBayRecord)
    | NizucRoom(nizuc: NizucRecord)
    | WymaraRoom(wymara: WymaraRecord)
    | CancunRoom(cancun: CancunRecord)
    | LookupFailed(lookup: Lookup)

  // ---------------------------------------------------------------------
  // sugar_beach: one try/catch per room

  /** What the lookups scoped to one room card find: its `h2`, its size
      element and its price element. */
  datatype Card = Card(heading: Option<string>, size: Option<string>, price: Option<string>)

  /** The sugar_beach room list. The guests, bed and area lookups start
      with `//`, so although they are made from a room element they search
      the whole document and find the page's first match, whatever the
      room: they are one value per page, not per card. */
  datatype SugarBeachPage = SugarBeachPage(
    cards: seq<Card>, guests: Option<string>, bed: Option<string>, area: Option<string>)

  datatype CardRead = Read(record: SugarBeachRecord) | Missing(lookup: Lookup)

  /** The body of the try block for room `i`: the six lookups in source
      order, the first one that finds nothing throws, and `Missing` names
      exactly that lookup. The area is looked
      up but never printed; the size loses its "square feet" suffix. */
  function ReadCard(page: SugarBeachPage, i: nat): (r: CardRead)
    requires i < |page.cards|
    ensures r.Read? <==>
      page.cards[i].heading.Some? && page.guests.Some? && page.bed.Some?
      && page.area.Some? && page.cards[i].size.Some? && page.cards[i].price.Some?
    ensures r.Read? ==> r.record == SugarBeachRecord(
      page.cards[i].heading.value, page.bed.value, page.guests.value,
      RoomSize(page.cards[i].size.value), page.cards[i].price.value)
    ensures r == Missing(RoomName) <==> page.cards[i].heading.None?
    ensures r == Missing(Guests) <==> page.cards[i].heading.Some? && page.guests.None?
    ensures r == Missing(Bed) <==>
      page.cards[i].heading.Some? && page.guests.Some? && page.bed.None?
    ensures r == Missing(Area) <==>
      page.cards[i].heading.Some? && page.guests.Some? && page.bed.Some? && page.area.None?
    ensures r == Missing(Size) <==>
      page.cards[i].heading.Some? && page.guests.Some? && page.bed.Some? && page.area.Some?
      && page.cards[i].size.None?
    ensures r == Missing(Price) <==>
      page.cards[i].heading.Some? && page.guests.Some? && page.bed.Some? && page.area.Some?
      && page.cards[i].size.Some? && page.cards[i].price.None?
  {
    var card := page.cards[i];
    if card.heading.None? then Missing(RoomName)
    else if page.guests.None? then Missing(Guests)
    else if page.bed.None? then Missing(Bed)
    else if page.area.None? then Missing(Area)
    else if card.size.None? then Missing(Size)
    else if card.price.None? then Missing(Price)
    else Read(SugarBeachRecord(card.heading.value, page.bed.value, page.guests.value,
                               RoomSize(card.size.value), card.price.value))
  }

  /** What iteration `i` prints: its record, or, from the catch block, the
      error only when `i < 1`. */
  function CardLines(page: SugarBeachPage, i: nat): seq<Line>
    requires i < |page.cards|
  {
    match ReadCard(page, i)
    case Read(record) => [SugarBeachRoom(record)]
    case Missing(lookup) => if i < 1 then [LookupFailed(lookup)] else []
  }

  lemma CardLinesShape(page: SugarBeachPage, i: nat)
    requires i < |page.cards|
    ensures |CardLines(page, i)| <= 1
    ensures |CardLines(page, i)| == 1 ==>
      (CardLines(page, i)[0].SugarBeachRoom?
       || (i == 0 && ReadCard(page, 0).Missing? && CardLines(page, i)[0] == LookupFailed(ReadCard(page, 0).lookup)))
  {
  }

  /** What the loop has printed after its first `k` iterations. */
  function SugarBeachLines(page: SugarBeachPage, k: nat): seq<Line>
    requires k <= |page.cards|
  {
    if k == 0 then [] else SugarBeachLines(page, k - 1) + CardLines(page, k - 1)
  }

  function AllLines(page: SugarBeachPage): seq<Line> {
    SugarBeachLines(page, |page.cards|)
  }

  /** A page on which every room reads in full prints exactly one record
      per room, in room order. */
  lemma {:induction false} SugarBeachAllRead(page: SugarBeachPage, k: nat)
    requires k <= |page.cards|
    requires forall i :: 0 <= i < k ==> ReadCard(page, i).Read?
    ensures |SugarBeachLines(page, k)| == k
    ensures forall i :: 0 <= i < k ==> SugarBeachLines(page, k)[i] == SugarBeachRoom(ReadCard(page, i).record)
  {
    if k > 0 {
      SugarBeachAllRead(page, k - 1);
    }
  }

  /** Only a failure at index 0 is ever reported, and then as the first
      line; every other line is a room record. */
  lemma {:induction false} SugarBeachErrorsOnlyFirst(page: SugarBeachPage, k: nat)
    requires k <= |page.cards|
    ensures forall j :: 0 <= j < |SugarBeachLines(page, k)| ==>
      SugarBeachLines(page, k)[j].SugarBeachRoom?
      || (j == 0 && ReadCard(page, 0).Missing? && SugarBeachLines(page, k)[j] == LookupFailed(ReadCard(page, 0).lookup))
  {
    if k > 0 {
      SugarBeachErrorsOnlyFirst(page, k - 1);
      var prev, last := SugarBeachLines(page, k - 1), CardLines(page, k - 1);
      var lines := prev + last;
      assert SugarBeachLines(page, k) == lines;
      assert k == 1 ==> prev == [];
      CardLinesShape(page, k - 1);
      var missing := ReadCard(page, 0).Missing?;
      var first := if missing then LookupFailed(ReadCard(page, 0).lookup) else LookupFailed(RoomName);
      assert forall j :: 0 <= j < |prev| ==> prev[j].SugarBeachRoom? || (j == 0 && missing && prev[j] == first);
      assert |last| == 1 ==> last[0].SugarBeachRoom? || (prev == [] && missing && last[0] == first);
      ShapeOfConcat(prev, last, first, ReadCard(page, 0).Missing?);
    }
  }

  /** When the first room fails, its error is the first line printed. */
  lemma {:induction false} SugarBeachFirstError(page: SugarBeachPage, k: nat)
    requires 0 < k <= |page.cards| && ReadCard(page, 0).Missing?
    ensures |SugarBeachLines(page, k)| >= 1 && SugarBeachLines(page, k)[0] == LookupFailed(ReadCard(page, 0).lookup)
  {
    if k > 1 {
      SugarBeachFirstError(page, k - 1);
      var prev := SugarBeachLines(page, k - 1);
      assert SugarBeachLines(page, k) == prev + CardLines(page, k - 1);
    } else {
      assert SugarBeachLines(page, 1) == [] + CardLines(page, 0);
    }
  }

  lemma ShapeOfConcat(prev: seq<Line>, last: seq<Line>, first: Line, firstMissing: bool)
    requires forall j :: 0 <= j < |prev| ==> prev[j].SugarBeachRoom? || (j == 0 && firstMissing && prev[j] == first)
    requires |last| <= 1
    requires |last| == 1 ==> last[0].SugarBeachRoom? || (prev == [] && firstMissing && last[0] == first)
    ensures forall j :: 0 <= j < |prev + last| ==>
      (prev + last)[j].SugarBeachRoom? || (j == 0 && firstMissing && (prev + last)[j] == first)
  {
    var lines := prev + last;
    forall j | 0 <= j < |lines|
      ensures lines[j].SugarBeachRoom? || (j == 0 && firstMissing && lines[j] == first)
    {
      if j >= |prev| {
        assert lines[j] == last[0];
      } else {
        assert lines[j] == prev[j];
      }
    }
  }

  /** Every printed record carries the page's first guests and bed values:
      the document-wide lookups ignore which room they were made from. */
  lemma {:induction false} SugarBeachDocumentScoped(page: SugarBeachPage, k: nat)
    requires k <= |page.cards|
    ensures forall j :: 0 <= j < |SugarBeachLines(page, k)| && SugarBeachLines(page, k)[j].SugarBeachRoom? ==>
      page.guests.Some? && page.bed.Some? && page.area.Some?
      && SugarBeachLines(page, k)[j].sugarBeach.guests == page.guests.value
      && SugarBeachLines(page, k)[j].sugarBeach.bed == page.bed.value
  {
    if k > 0 {
      SugarBeachDocumentScoped(page, k - 1);
    }
  }

  /** A room after the first whose lookups fail leaves no trace: the page
      prints exactly what it would print without that room. */
  lemma {:induction false} SugarBeachLaterFailureSilent(page: SugarBeachPage, j: nat, k: nat)
    requires 0 < j < |page.cards| && ReadCard(page, j).Missing?
    requires j <= k < |page.cards|
    ensures var without := page.(cards := page.cards[..j] + page.cards[j + 1..]);
      SugarBeachLines(page, k + 1) == SugarBeachLines(without, k)
    decreases k
  {
    var without := page.(cards := page.cards[..j] + page.cards[j + 1..]);
    if k == j {
      assert CardLines(page, j) == [];
      PrefixSame(page, without, j);
    } else {
      SugarBeachLaterFailureSilent(page, j, k - 1);
      assert without.cards[k - 1] == page.cards[k];
      assert ReadCard(without, k - 1) == ReadCard(page, k);
    }
  }

  lemma {:induction false} PrefixSame(page: SugarBeachPage, other: SugarBeachPage, k: nat)
    requires k <= |page.cards| && k <= |other.cards|
    requires page.cards[..k] == other.cards[..k]
    requires page.guests == other.guests && page.bed == other.bed && page.area == other.area
    ensures SugarBeachLines(page, k) == SugarBeachLines(other, k)
  {
    if k > 0 {
      assert page.cards[..k - 1] == page.cards[..k][..k - 1];
      assert other.cards[..k - 1] == other.cards[..k][..k - 1];
      assert page.cards[k - 1] == page.cards[..k][k - 1];
      PrefixSame(page, other, k - 1);
    }
  }

  /** The area is never printed, yet without it no room prints: the page
      shows at most the one error from index 0. */
  lemma SugarBeachAreaGate(page: SugarBeachPage)
    requires page.area.None?
    ensures AllLines(page) == if |page.cards| == 0 then [] else [LookupFailed(ReadCard(page, 0).lookup)]
  {
    var n := |page.cards|;
    if n > 0 {
      SugarBeachErrorsOnlyFirst(page, n);
      NoRecordsWithoutArea(page, n);
    }
  }

  /** The records of the rooms below `k` that read in full, in room order,
      whatever happens to the others. */
  function Printed(page: SugarBeachPage, k: nat): (records: seq<Line>)
    requires k <= |page.cards|
    ensures |records| <= k
    ensures forall j :: 0 <= j < |records| ==> records[j].SugarBeachRoom?
  {
    if k == 0 then []
    else
      var read := ReadCard(page, k - 1);
      Printed(page, k - 1) + (if read.Read? then [SugarBeachRoom(read.record)] else [])
  }

  /** The error line of a failing first room, if there is one among the
      first `k`. */
  function FirstRoomError(page: SugarBeachPage, k: nat): seq<Line>
    requires k <= |page.cards|
  {
    if 0 < k && ReadCard(page, 0).Missing? then [LookupFailed(ReadCard(page, 0).lookup)] else []
  }

  /** No failure stops the loop: the output is index 0's error when room 0
      fails, followed by the record of every room that reads, in order. */
  lemma {:induction false} SugarBeachOutput(page: SugarBeachPage, k: nat)
    requires k <= |page.cards|
    ensures SugarBeachLines(page, k) == FirstRoomError(page, k) + Printed(page, k)
  {
    if k == 1 {
      assert SugarBeachLines(page, 1) == [] + CardLines(page, 0);
    } else if k > 1 {
      SugarBeachOutput(page, k - 1);
      var tail := if ReadCard(page, k - 1).Read? then [SugarBeachRoom(ReadCard(page, k - 1).record)] else [];
      assert CardLines(page, k - 1) == tail;
      assert Printed(page, k) == Printed(page, k - 1) + tail;
      assert FirstRoomError(page, k) == FirstRoomError(page, k - 1);
      assert SugarBeachLines(page, k) == FirstRoomError(page, k - 1) + Printed(page, k - 1) + tail;
    }
  }

  /** A room that reads is printed, whatever fails before or after it: its
      record is in the output, after every earlier printed record. */
  lemma {:induction false} ReadRoomPrinted(page: SugarBeachPage, i: nat, k: nat)
    requires i < k <= |page.cards| && ReadCard(page, i).Read?
    ensures SugarBeachRoom(ReadCard(page, i).record) in Printed(page, k)
    ensures Printed(page, i + 1) <= Printed(page, k)
    decreases k
  {
    if k == i + 1 {
      assert Printed(page, k)[|Printed(page, i)|] == SugarBeachRoom(ReadCard(page, i).record);
    } else {
      ReadRoomPrinted(page, i, k - 1);
      var read := ReadCard(page, k - 1);
      assert Printed(page, k) == Printed(page, k - 1) + (if read.Read? then [SugarBeachRoom(read.record)] else []);
    }
  }

  lemma {:induction false} NoRecordsWithoutArea(page: SugarBeachPage, k: nat)
    requires page.area.None? && 0 < k <= |page.cards|
    ensures SugarBeachLines(page, k) == [LookupFailed(ReadCard(page, 0).lookup)]
  {
    if k > 1 {
      NoRecordsWithoutArea(page, k - 1);
    }
  }

  // ---------------------------------------------------------------------
  // The four sites that index parallel lists

  /** The sites whose loop reads element `i` of lists queried one by one. */
  datatype ListSite = GraceBayClub | Nizuc | WymaraResort | Cancun

  /** How many lists each site reads per room. */
  function FieldCount(site: ListSite): nat {
    match site
    case GraceBayClub => 6
    case Nizuc => 3
    case WymaraResort => 4
    case Cancun => 5
  }

  /** The record printed for one room from the `i`-th element of each list,
      the lists given in the order the loop reads them:
      grace_bay_club: names, bed sizes, sleeps, room sizes, beach-escape
      rates, standard rates; nizuc: names, prices, other details; wymara:
      names, prices, other details, important details; cancun: names,
      room-only average prices, all-inclusive average prices,
      all-inclusive totals, room-only totals. */
  function Render(site: ListSite, row: seq<string>): Line
    requires |row| == FieldCount(site)
  {
    match site
    case GraceBayClub =>
      GraceBayRoom(GraceBayRecord(row[0], row[1], row[2], RoomSize(row[3]), row[4], row[5]))
    case Nizuc => NizucRoom(NizucRecord(row[0], row[2], row[1]))
    case WymaraResort => WymaraRoom(WymaraRecord(row[0], row[3], row[2], row[1]))
    case Cancun =>
      CancunRoom(CancunRecord(CancunRoomName(row[0]), Rate(row[1], row[4]), Rate(row[2], row[3])))
  }

  /** How many iterations complete: the anchor count, cut down to the
      length of the shortest list. */
  function Reachable(n: nat, lists: seq<seq<string>>): (r: nat)
    ensures r <= n
    ensures forall k :: 0 <= k < |lists| ==> r <= |lists[k]|
    ensures r < n ==> exists k :: 0 <= k < |lists| && |lists[k]| == r
  {
    if lists == [] then n
    else
      var rest := Reachable(n, lists[1..]);
      assert forall k :: 1 <= k < |lists| ==> lists[k] == lists[1..][k - 1];
      if |lists[0]| < rest then |lists[0]| else rest
  }

  /** Index `i` is within every list. */
  predicate Fits(lists: seq<seq<string>>, i: nat) {
    forall k :: 0 <= k < |lists| ==> i < |lists[k]|
  }

  /** An iteration completes exactly when its index is below the anchor
      count and within every list. */
  lemma ReachableExactly(n: nat, lists: seq<seq<string>>, i: nat)
    ensures i < Reachable(n, lists) <==> i < n && Fits(lists, i)
  {
  }

  /** The `i`-th element of every list. */
  function Row(lists: seq<seq<string>>, i: nat): (row: seq<string>)
    requires Fits(lists, i)
    ensures |row| == |lists|
    ensures forall k :: 0 <= k < |lists| ==> row[k] == lists[k][i]
  {
    seq(|lists|, k requires 0 <= k < |lists| => lists[k][i])
  }

  /** The loop reads past the end of some list: `list[i]` is `undefined`,
      `.getText()` throws, and nothing catches it. */
  predicate Aborts(n: nat, lists: seq<seq<string>>) {
    exists k :: 0 <= k < |lists| && |lists[k]| < n
  }

  /** What the loop prints before it ends or aborts. Record `i` is made of
      element `i` of every list; when every list is at least as long as the
      anchor list exactly one record per anchor is printed and the loop
      finishes, otherwise exactly as many records as the shortest list
      holds are printed before it aborts. */
  function ListLines(site: ListSite, n: nat, lists: seq<seq<string>>): (lines: seq<Line>)
    requires |lists| == FieldCount(site)
    ensures |lines| == Reachable(n, lists)
    ensures forall i :: 0 <= i < |lines| ==>
      lines[i] == Render(site, Row(lists, i))
  {
    seq(Reachable(n, lists), i requires 0 <= i < Reachable(n, lists) => Render(site, Row(lists, i)))
  }

  /** One record per anchor exactly when the loop does not abort; on an
      abort, as many records as the short list holds. */
  lemma ListLinesLength(site: ListSite, n: nat, lists: seq<seq<string>>)
    requires |lists| == FieldCount(site)
    ensures !Aborts(n, lists) <==> |ListLines(site, n, lists)| == n
    ensures Aborts(n, lists) ==>
      exists k :: 0 <= k < |lists| && |lists[k]| < n && |ListLines(site, n, lists)| == |lists[k]|
  {
    var r := Reachable(n, lists);
    if Aborts(n, lists) {
      var j :| 0 <= j < |lists| && |lists[j]| < n;
      assert r < n;
      var k :| 0 <= k < |lists| && |lists[k]| == r;
      assert |lists[k]| < n;
    }
  }

  /** One more iteration prints the record of row `i`. */
  lemma ListLinesStep(site: ListSite, n: nat, lists: seq<seq<string>>, i: nat)
    requires |lists| == FieldCount(site) && i < n && Fits(lists, i)
    ensures i < |ListLines(site, n, lists)|
    ensures ListLines(site, n, lists)[..i + 1] == ListLines(site, n, lists)[..i] + [Render(site, Row(lists, i))]
  {
    ReachableExactly(n, lists, i);
    LineAt(site, n, lists, i);
    SliceStep(ListLines(site, n, lists), i);
  }

  lemma LineAt(site: ListSite, n: nat, lists: seq<seq<string>>, i: nat)
    requires |lists| == FieldCount(site) && i < |ListLines(site, n, lists)|
    ensures ListLines(site, n, lists)[i] == Render(site, Row(lists, i))
  {
  }

  lemma SliceStep<T>(s: seq<T>, i: nat)
    requires i < |s|
    ensures s[..i + 1] == s[..i] + [s[i]]
  {
  }

  /** The loop stops exactly after the last line. */
  lemma ListLinesEnd(site: ListSite, n: nat, lists: seq<seq<string>>, i: nat)
    requires |lists| == FieldCount(site) && i <= |ListLines(site, n, lists)|
    requires !(i < n && Fits(lists, i))
    ensures ListLines(site, n, lists)[..i] == ListLines(site, n, lists)
    ensures i < n <==> Aborts(n, lists)
  {
    ReachableExactly(n, lists, i);
    ListLinesLength(site, n, lists);
  }

  /** Elements past the anchor count are never read. */
  lemma ListLinesIgnoreExtra(site: ListSite, n: nat, lists: seq<seq<string>>, longer: seq<seq<string>>)
    requires |lists| == |longer| == FieldCount(site)
    requires forall k :: 0 <= k < |lists| ==> n <= |lists[k]| && lists[k] <= longer[k]
    ensures ListLines(site, n, longer) == ListLines(site, n, lists)
  {
    forall k | 0 <= k < |lists| ensures n <= |longer[k]| {
      assert |lists[k]| <= |longer[k]|;
    }
    forall i | 0 <= i < n ensures Row(longer, i) == Row(lists, i) {
      forall k | 0 <= k < |lists| ensures longer[k][i] == lists[k][i] {
        assert lists[k] == longer[k][..|lists[k]|];
      }
    }
  }

  // ---------------------------------------------------------------------
  // Which list feeds which field, site by site

  /** grace_bay_club: name, bed size, sleeps, the stripped room size, and
      the beach-escape and standard rates, each from element `i` of its
      own list. */
  lemma GraceBayRecordAt(n: nat, names: seq<string>, beds: seq<string>, sleeps: seq<string>,
                         sizes: seq<string>, beachEscapes: seq<string>, standards: seq<string>, i: nat)
    requires i < |ListLines(GraceBayClub, n, [names, beds, sleeps, sizes, beachEscapes, standards])|
    ensures i < |names| && i < |beds| && i < |sleeps| && i < |sizes| && i < |beachEscapes| && i < |standards|
      && ListLines(GraceBayClub, n, [names, beds, sleeps, sizes, beachEscapes, standards])[i]
         == GraceBayRoom(GraceBayRecord(names[i], beds[i], sleeps[i], RoomSize(sizes[i]), beachEscapes[i], standards[i]))
  {
    var lists := [names, beds, sleeps, sizes, beachEscapes, standards];
    assert lists[0] == names && lists[1] == beds && lists[2] == sleeps;
    assert lists[3] == sizes && lists[4] == beachEscapes && lists[5] == standards;
    LineAt(GraceBayClub, n, lists, i);
  }

  /** nizuc: the record lists the name, then the details, then the price,
      although the price list is read second. */
  lemma NizucRecordAt(n: nat, names: seq<string>, prices: seq<string>, details: seq<string>, i: nat)
    requires i < |ListLines(Nizuc, n, [names, prices, details])|
    ensures i < |names| && i < |prices| && i < |details|
      && ListLines(Nizuc, n, [names, prices, details])[i]
         == NizucRoom(NizucRecord(names[i], details[i], prices[i]))
  {
    var lists := [names, prices, details];
    assert lists[0] == names && lists[1] == prices && lists[2] == details;
    LineAt(Nizuc, n, lists, i);
  }

  /** wymara_resort: name, important details, other details and price. */
  lemma WymaraRecordAt(n: nat, names: seq<string>, prices: seq<string>, details: seq<string>,
                       impDetails: seq<string>, i: nat)
    requires i < |ListLines(WymaraResort, n, [names, prices, details, impDetails])|
    ensures i < |names| && i < |prices| && i < |details| && i < |impDetails|
      && ListLines(WymaraResort, n, [names, prices, details, impDetails])[i]
         == WymaraRoom(WymaraRecord(names[i], impDetails[i], details[i], prices[i]))
  {
    var lists := [names, prices, details, impDetails];
    assert lists[0] == names && lists[1] == prices && lists[2] == details && lists[3] == impDetails;
    LineAt(WymaraResort, n, lists, i);
  }

  /** cancun: the name cut at its first dash, the room-only rate from the
      room-only average and total, the all-inclusive rate from the
      all-inclusive average and total. */
  lemma CancunRecordAt(n: nat, names: seq<string>, avgRoomOnly: seq<string>, avgAllInclusive: seq<string>,
                       totalAllInclusive: seq<string>, totalRoomOnly: seq<string>, i: nat)
    requires i < |ListLines(Cancun, n, [names, avgRoomOnly, avgAllInclusive, totalAllInclusive, totalRoomOnly])|
    ensures i < |names| && i < |avgRoomOnly| && i < |avgAllInclusive| && i < |totalAllInclusive| && i < |totalRoomOnly|
      && ListLines(Cancun, n, [names, avgRoomOnly, avgAllInclusive, totalAllInclusive, totalRoomOnly])[i]
         == CancunRoom(CancunRecord(CancunRoomName(names[i]),
                                    Rate(avgRoomOnly[i], totalRoomOnly[i]),
                                    Rate(avgAllInclusive[i], totalAllInclusive[i])))
  {
    var lists := [names, avgRoomOnly, avgAllInclusive, totalAllInclusive, totalRoomOnly];
    assert lists[0] == names && lists[1] == avgRoomOnly && lists[2] == avgAllInclusive;
    assert lists[3] == totalAllInclusive && lists[4] == totalRoomOnly;
    LineAt(Cancun, n, lists, i);
  }
}
