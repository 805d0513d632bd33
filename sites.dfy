/** The run skeleton shared by the five site functions of app.js: start a
    browser session, compute the stay dates, drive the search form, run the
    room loop, and `quit()` the session at the very end. Every awaited call
    except the availability-banner read sits outside any try/catch, so the
    first one that fails rejects the run's promise and the `quit()` after
    it is never reached. */
module Sites {
  import opened Wrappers
  import opened Dates
  import opened Normalize
  import opened Extraction

  /** One step before the room loop. */
  datatype Step =
    | Interact(succeeds: bool)            // maximize, get(url), findElement + click
    | ReadHeading(heading: Option<string>) // the `heroTitle` text, logged as the hotel name
    | ReadBanner(banner: Option<string>)   // the availability banner, read inside its own try/catch
    | Say(line: Line)                      // a console.log of values already at hand

  /** A step fails when it is unguarded and what it waits for is not there. */
  predicate Fails(step: Step) {
    match step
    case Interact(ok) => !ok
    case ReadHeading(heading) => heading.None?
    case ReadBanner(_) => false
    case Say(_) => false
  }

  /** What a step that does not fail prints. */
  function StepLines(step: Step): seq<Line>
    requires !Fails(step)
  {
    match step
    case Interact(_) => []
    case ReadHeading(heading) => [HotelName(heading.value)]
    case ReadBanner(banner) => if banner.Some? then [Availability(banner.value)] else [NoAvailabilityBanner]
    case Say(line) => [line]
  }

  datatype Progress = Progress(lines: seq<Line>, completed: bool)

  /** The steps from index `i` on, taken in order until the first one
      that fails. */
  function RunFrom(steps: seq<Step>, i: nat): Progress
    requires i <= |steps|
    decreases |steps| - i
  {
    if i == |steps| then Progress([], true)
    else if Fails(steps[i]) then Progress([], false)
    else
      var rest := RunFrom(steps, i + 1);
      Progress(StepLines(steps[i]) + rest.lines, rest.completed)
  }

  function RunSteps(steps: seq<Step>): Progress {
    RunFrom(steps, 0)
  }

  /** Taking one more step moves its lines from what is still to come
      to what has been printed. */
  lemma RunFromStep(steps: seq<Step>, i: nat, done: seq<Line>)
    requires i < |steps| && !Fails(steps[i])
    ensures done + RunFrom(steps, i).lines == (done + StepLines(steps[i])) + RunFrom(steps, i + 1).lines
    ensures RunFrom(steps, i).completed == RunFrom(steps, i + 1).completed
  {
    var rest := RunFrom(steps, i + 1);
    assert RunFrom(steps, i).lines == StepLines(steps[i]) + rest.lines;
  }

  predicate NoFailure(steps: seq<Step>) {
    forall k :: 0 <= k < |steps| ==> !Fails(steps[k])
  }

  lemma {:induction false} CompletesFrom(steps: seq<Step>, i: nat)
    requires i <= |steps|
    ensures RunFrom(steps, i).completed <==> forall k :: i <= k < |steps| ==> !Fails(steps[k])
    decreases |steps| - i
  {
    if i < |steps| {
      CompletesFrom(steps, i + 1);
    }
  }

  /** The steps complete exactly when none of them fails. */
  lemma CompletesIffNoFailure(steps: seq<Step>)
    ensures RunSteps(steps).completed <==> NoFailure(steps)
  {
    CompletesFrom(steps, 0);
  }

  /** The banner is the one guarded read: whether it is there never decides
      whether the steps complete. */
  lemma BannerIsGuarded(steps: seq<Step>, k: nat, banner: Option<string>)
    requires k < |steps| && steps[k].ReadBanner?
    ensures RunSteps(steps[k := ReadBanner(banner)]).completed == RunSteps(steps).completed
  {
    var changed := steps[k := ReadBanner(banner)];
    CompletesIffNoFailure(steps);
    CompletesIffNoFailure(changed);
    assert forall j :: 0 <= j < |steps| ==> Fails(changed[j]) == Fails(steps[j]);
  }

  /** What the search page answers before the room loop: whether the
      window maximises and the URL loads, the `heroTitle` text, the
      availability banner, and whether each find-and-click of the search
      form finds its element. */
  datatype SearchPage = SearchPage(
    maximizes: bool, loads: bool, heroTitle: Option<string>, banner: Option<string>,
    controls: seq<bool>)

  function Controls(controls: seq<bool>): (steps: seq<Step>)
    ensures |steps| == |controls|
    ensures forall i :: 0 <= i < |controls| ==> steps[i] == Interact(controls[i])
  {
    seq(|controls|, i requires 0 <= i < |controls| => Interact(controls[i]))
  }

  /** The steps of the four booking-engine sites (sugar_beach,
      grace_bay_club, nizuc, wymara_resort): maximise, log the stay dates
      where the site does, load, read the hotel name, read the banner under
      its try/catch, then open the rate selector and pick its first item
      (the two find-and-clicks the run methods require). */
  function BookingSteps(search: SearchPage, window: Option<(string, string)>): seq<Step> {
    [Interact(search.maximizes)]
    + (if window.Some? then [Say(StayWindow(window.value.0, window.value.1))] else [])
    + [Interact(search.loads), ReadHeading(search.heroTitle), ReadBanner(search.banner)]
    + Controls(search.controls)
  }

  /** The Cancun steps: maximise, load, log the fixed hotel name, then the
      five find-and-clicks of the calendar and search form (opener, arrival
      cell, departure cell, "Select dates", check availability). */
  function CancunSteps(search: SearchPage): seq<Step> {
    [Interact(search.maximizes), Interact(search.loads), Say(HotelName("Garza Blanca Resort"))]
    + Controls(search.controls)
  }

  /** The state one site run changes: what it has printed, whether its
      browser session is still open, and whether an uncaught error has
      rejected its promise. Nothing else of a rejected run executes, so
      every method that takes a step or prints a room requires `!rejected`. */
  class Run {
    var console: seq<Line>
    var sessionOpen: bool
    var rejected: bool

    /** `await new Builder().forBrowser(Browser.CHROME).build()`. */
    constructor ()
      ensures console == [] && sessionOpen && !rejected
    {
      console := [];
      sessionOpen := true;
      rejected := false;
    }

    /** `console.log(line)`. */
    method Log(line: Line)
      modifies this`console
      ensures console == old(console) + [line]
    {
      console := console + [line];
    }

    /** One step that does not fail: what it logs is appended. */
    method Take(step: Step)
      requires !rejected && !Fails(step)
      modifies this`console
      ensures console == old(console) + StepLines(step)
    {
      match step {
        case Interact(_) =>
        case ReadHeading(heading) =>
          Log(HotelName(heading.value));
        case ReadBanner(banner) =>
          if banner.Some? {
            Log(Availability(banner.value));
          } else {
            Log(NoAvailabilityBanner);
          }
        case Say(line) =>
          Log(line);
      }
    }

    /** The steps in order; the first that fails rejects the run. */
    method Perform(steps: seq<Step>)
      requires !rejected
      modifies this
      ensures console == old(console) + RunSteps(steps).lines
      ensures rejected == !RunSteps(steps).completed
      ensures sessionOpen == old(sessionOpen)
    {
      var stopped := TakeSteps(steps);
      rejected := stopped;
    }

    /** The steps up to the first that fails, whose error then propagates;
      `stopped` says whether one failed. */
    method TakeSteps(steps: seq<Step>) returns (stopped: bool)
      requires !rejected
      modifies this`console
      ensures console == old(console) + RunSteps(steps).lines
      ensures stopped == !RunSteps(steps).completed
    {
      var i := 0;
      ghost var done: seq<Line> := [];
      while i < |steps| && !Fails(steps[i])
        invariant 0 <= i <= |steps|
        invariant console == old(console) + done
        invariant RunSteps(steps).lines == done + RunFrom(steps, i).lines
        invariant RunSteps(steps).completed == RunFrom(steps, i).completed
      {
        RunFromStep(steps, i, done);
        Take(steps[i]);
        done := done + StepLines(steps[i]);
        i := i + 1;
      }
      stopped := i < |steps|;
    }

    /** `await drivers.quit()`. */
    method Quit()
      requires !rejected
      modifies this
      ensures !sessionOpen && !rejected && console == old(console)
    {
      sessionOpen := false;
    }

    /** The sugar_beach loop: every index is tried, each inside its own
      try/catch. */
    method SugarBeachRooms(page: SugarBeachPage)
      requires !rejected
      modifies this`console
      ensures console == old(console) + AllLines(page)
    {
      var i := 0;
      while i < |page.cards|
        invariant 0 <= i <= |page.cards|
        invariant console == old(console) + SugarBeachLines(page, i)
      {
        assert SugarBeachLines(page, i + 1) == SugarBeachLines(page, i) + CardLines(page, i);
        TakeCard(page, i);
        i := i + 1;
      }
    }

    /** One pass of that loop: the record when every lookup succeeds; a
      failed lookup is caught and logged only on the first pass. */
    method TakeCard(page: SugarBeachPage, i: nat)
      requires !rejected && i < |page.cards|
      modifies this`console
      ensures console == old(console) + CardLines(page, i)
    {
      match ReadCard(page, i) {
        case Read(record) =>
          Log(SugarBeachRoom(record));
        case Missing(lookup) =>
          if i < 1 {
            Log(LookupFailed(lookup));
          }
      }
    }

    /** The loop of the other four sites: element `i` of every list, with
      nothing to catch a read past the end of one, so a short list rejects
      the run. */
    method ListRooms(site: ListSite, n: nat, lists: seq<seq<string>>)
      requires !rejected && |lists| == FieldCount(site)
      modifies this
      ensures console == old(console) + ListLines(site, n, lists)
      ensures rejected == Aborts(n, lists)
      ensures sessionOpen == old(sessionOpen)
    {
      var i := PrintRows(site, n, lists);
      rejected := i < n;
    }

    /** The records the loop prints; it stops at the anchor count or at the
      first index missing from some list. */
    method PrintRows(site: ListSite, n: nat, lists: seq<seq<string>>) returns (i: nat)
      requires !rejected && |lists| == FieldCount(site)
      modifies this`console
      ensures console == old(console) + ListLines(site, n, lists)
      ensures i < n <==> Aborts(n, lists)
    {
      ghost var lines := ListLines(site, n, lists);
      i := 0;
      while i < n && Fits(lists, i)
        invariant i <= |lines|
        invariant console == old(console) + lines[..i]
      {
        ListLinesStep(site, n, lists, i);
        Log(Render(site, Row(lists, i)));
        i := i + 1;
      }
      ListLinesEnd(site, n, lists, i);
    }
  }

  /** `sugar_beach()`: the stay dates in the default layout, logged; the
      session is closed exactly when no unguarded step fails, since the
      room loop itself never throws. */
  method RunSugarBeach(today: Date, search: SearchPage, page: SugarBeachPage)
    returns (run: Run, window: (string, string))
    requires |search.controls| == 2
    requires Valid(today)
    ensures window == StayDates(today, None)
    ensures var steps := BookingSteps(search, Some(window));
      run.console == RunSteps(steps).lines + (if NoFailure(steps) then AllLines(page) else [])
      && (!run.sessionOpen <==> NoFailure(steps))
  {
    window := StayDates(today, None);
    var steps := BookingSteps(search, Some(window));
    CompletesIffNoFailure(steps);
    ghost var prelude := RunSteps(steps);
    run := new Run();
    run.Perform(steps);
    assert run.console == prelude.lines && run.rejected == !prelude.completed;
    if !run.rejected {
      run.SugarBeachRooms(page);
      assert run.console == prelude.lines + AllLines(page);
      run.Quit();
    }
  }

  /** The shared body of the four list-reading sites once their steps are
      known: the session is closed exactly when no unguarded step fails and
      no list is shorter than the anchor list. */
  method RunListSite(site: ListSite, steps: seq<Step>, n: nat, lists: seq<seq<string>>)
    returns (run: Run)
    requires |lists| == FieldCount(site)
    ensures run.console == RunSteps(steps).lines + (if NoFailure(steps) then ListLines(site, n, lists) else [])
    ensures !run.sessionOpen <==> NoFailure(steps) && !Aborts(n, lists)
  {
    CompletesIffNoFailure(steps);
    ghost var prelude := RunSteps(steps);
    run := new Run();
    run.Perform(steps);
    assert run.console == prelude.lines && run.rejected == !prelude.completed;
    if !run.rejected {
      ghost var aborts := Aborts(n, lists);
      run.ListRooms(site, n, lists);
      assert run.rejected == aborts;
      if !run.rejected {
        run.Quit();
      }
    }
  }

  /** `grace_bay_club()`: dates in the "gracebay" layout, not logged. */
  method RunGraceBayClub(today: Date, search: SearchPage, anchors: nat,
                      names: seq<string>, beds: seq<string>, sleeps: seq<string>,
                      sizes: seq<string>, beachEscapes: seq<string>, standards: seq<string>)
    returns (run: Run, window: (string, string))
    requires |search.controls| == 2
    requires Valid(today)
    ensures window == StayDates(today, Some("gracebay"))
    ensures var steps, lists := BookingSteps(search, None), [names, beds, sleeps, sizes, beachEscapes, standards];
      run.console == RunSteps(steps).lines + (if NoFailure(steps) then ListLines(GraceBayClub, anchors, lists) else [])
      && (!run.sessionOpen <==> NoFailure(steps) && !Aborts(anchors, lists))
  {
    window := StayDates(today, Some("gracebay"));
    run := RunListSite(GraceBayClub, BookingSteps(search, None), anchors,
                    [names, beds, sleeps, sizes, beachEscapes, standards]);
  }

  /** `nizuc()`: dates in the "gracebay" layout, not logged. */
  method RunNizuc(today: Date, search: SearchPage, anchors: nat,
               names: seq<string>, prices: seq<string>, details: seq<string>)
    returns (run: Run, window: (string, string))
    requires |search.controls| == 2
    requires Valid(today)
    ensures window == StayDates(today, Some("gracebay"))
    ensures var steps, lists := BookingSteps(search, None), [names, prices, details];
      run.console == RunSteps(steps).lines + (if NoFailure(steps) then ListLines(Nizuc, anchors, lists) else [])
      && (!run.sessionOpen <==> NoFailure(steps) && !Aborts(anchors, lists))
  {
    window := StayDates(today, Some("gracebay"));
    run := RunListSite(Nizuc, BookingSteps(search, None), anchors, [names, prices, details]);
  }

  /** `wymara_resort()`: dates in the "gracebay" layout, logged; the anchor
      list is the rate cards, not the room cards. */
  method RunWymaraResort(today: Date, search: SearchPage, anchors: nat,
                      names: seq<string>, prices: seq<string>, details: seq<string>,
                      impDetails: seq<string>)
    returns (run: Run, window: (string, string))
    requires |search.controls| == 2
    requires Valid(today)
    ensures window == StayDates(today, Some("gracebay"))
    ensures var steps, lists := BookingSteps(search, Some(window)), [names, prices, details, impDetails];
      run.console == RunSteps(steps).lines + (if NoFailure(steps) then ListLines(WymaraResort, anchors, lists) else [])
      && (!run.sessionOpen <==> NoFailure(steps) && !Aborts(anchors, lists))
  {
    window := StayDates(today, Some("gracebay"));
    run := RunListSite(WymaraResort, BookingSteps(search, Some(window)), anchors,
                    [names, prices, details, impDetails]);
  }

  /** The calendar cells `cancun()` clicks: its stay is hard-wired to arrive
      on 30 November 2023 and leave on 2 December 2023, and each date is
      split into the day, 0-based month and year the selector matches. */
  method CancunCalendar() returns (arrival: Selector, departure: Selector)
    ensures arrival == Selector(Some("30"), Some(10), Some("2023"))
    ensures departure == Selector(Some("2"), Some(11), Some("2023"))
  {
    var arrivalDate, departureDate := "30-11-2023", "02-12-2023";
    CancunArrivalExample();
    CancunDepartureExample();
    arrival := ArrivalSelector(arrivalDate);
    departure := DepartureSelector(departureDate);
  }

  /** `cancun()`: the calendar cells above, then the shared room loop. */
  method RunCancun(search: SearchPage, anchors: nat,
                names: seq<string>, avgRoomOnly: seq<string>, avgAllInclusive: seq<string>,
                totalAllInclusive: seq<string>, totalRoomOnly: seq<string>)
    returns (run: Run, arrival: Selector, departure: Selector)
    requires |search.controls| == 5
    ensures arrival == Selector(Some("30"), Some(10), Some("2023"))
    ensures departure == Selector(Some("2"), Some(11), Some("2023"))
    ensures var steps, lists := CancunSteps(search), [names, avgRoomOnly, avgAllInclusive, totalAllInclusive, totalRoomOnly];
      run.console == RunSteps(steps).lines + (if NoFailure(steps) then ListLines(Cancun, anchors, lists) else [])
      && (!run.sessionOpen <==> NoFailure(steps) && !Aborts(anchors, lists))
  {
    arrival, departure := CancunCalendar();
    run := RunListSite(Cancun, CancunSteps(search), anchors,
                    [names, avgRoomOnly, avgAllInclusive, totalAllInclusive, totalRoomOnly]);
  }
}
