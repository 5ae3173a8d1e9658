/** cerca_treni.py: the train search. For every Friday (Rome to Milan) and
    every Sunday (Milan to Rome) between 50 and 120 days ahead it reads the
    solutions the booking site lists, keeps those in the time window that
    are short enough, and sends one MarkdownV2 report per date.
    The browser is replaced by what it yields for each date: the records
    extracted from the page, and the text of the exception if one was
    raised while reading them. */
module TrainSearch {
  import opened Text
  import opened Calendar
  import opened Telegram
  import opened MarkdownV2
  import opened Lists

  // ------------------------------------------------------ parse_duration

  const DurationFallback := 9999

  /** The part after the hours: the minutes it names, None where int raises. */
  function MinutesPart(remaining: string): Option<int> {
    if HasInfix(remaining, "min") then ParseInt(Strip(Replace(remaining, "min", ""))) else Some(0)
  }

  /** parse_duration: the hours before the first 'h' times 60 plus the
      minutes of the piece after it; 0 when `s` names neither hours nor
      minutes, and the fallback 9999 when the hours or the minutes are not an
      integer. It never raises. */
  function DurationMinutes(s: string): (r: int)
    ensures 'h' !in s && !HasInfix(s, "min") ==> r == 0
    ensures 'h' in s && ParseInt(SplitOn(s, 'h')[0]).None? ==> r == DurationFallback
    ensures MinutesPart(if 'h' in s then SplitOn(s, 'h')[1] else s).None? ==> r == DurationFallback
  {
    if 'h' in s then
      var parts := SplitOn(s, 'h');
      match ParseInt(parts[0])
      case None => DurationFallback
      case Some(hours) =>
        match MinutesPart(parts[1])
        case None => DurationFallback
        case Some(m) => 60 * hours + m
    else
      match MinutesPart(s)
      case None => DurationFallback
      case Some(m) => m
  }

  lemma IntToStringShape(n: int)
    ensures 'h' !in IntToString(n) && 'm' !in IntToString(n) && ':' !in IntToString(n)
    ensures !IsSpace(IntToString(n)[0]) && !IsSpace(IntToString(n)[|IntToString(n)| - 1])
  {
    var s := IntToString(n);
    if n < 0 {
      assert s[1..] == NatToString(-n);
      assert forall k :: 1 <= k < |s| ==> IsDigit(s[k]) by {
        forall k | 1 <= k < |s| ensures IsDigit(s[k]) { assert s[k] == s[1..][k - 1]; }
      }
    }
  }

  /** The minutes part " M min" reads as M. */
  lemma {:induction false} MinutesPartOf(m: int)
    ensures MinutesPart(" " + IntToString(m) + "min") == Some(m)
  {
    var digits := IntToString(m);
    var a := " " + digits;
    IntToStringShape(m);
    HasInfixSuffix(a, "min");
    assert 'm' !in a;
    ReplaceSkips(a, "min", "min", "");
    assert Replace("min", "min", "") == "";
    assert a + "" == a;
    assert a == [' '] + digits;
    assert StripLeft(a) == StripLeft(digits);
    StripUnchanged(digits);
    IntToStringParses(m);
  }

  /** "Hh Mmin" is 60 * H + M minutes. */
  lemma {:induction false} DurationHoursAndMinutes(h: int, m: int)
    ensures DurationMinutes(IntToString(h) + "h " + IntToString(m) + "min") == 60 * h + m
  {
    var hs := IntToString(h);
    var rest := " " + IntToString(m) + "min";
    var s := hs + "h " + IntToString(m) + "min";
    assert s == hs + ['h'] + rest;
    assert s[|hs|] == 'h';
    IntToStringShape(h);
    IntToStringShape(m);
    assert 'h' !in rest;
    SplitOnFirst(hs, 'h', rest);
    SplitOnNone(rest, 'h');
    IntToStringParses(h);
    MinutesPartOf(m);
    DurationOfPieces(s, h, m);
  }

  /** With an 'h', the duration is 60 times the hours before it plus the
      minutes after it. */
  lemma DurationOfPieces(s: string, hours: int, minutes: int)
    requires 'h' in s
    requires ParseInt(SplitOn(s, 'h')[0]) == Some(hours)
    requires MinutesPart(SplitOn(s, 'h')[1]) == Some(minutes)
    ensures DurationMinutes(s) == 60 * hours + minutes
  {
  }

  /** "Hh" is 60 * H minutes. */
  lemma {:induction false} DurationHoursOnly(h: int)
    ensures DurationMinutes(IntToString(h) + "h") == 60 * h
  {
    var hs := IntToString(h);
    var s := hs + "h";
    assert s == hs + ['h'] + "";
    assert s[|hs|] == 'h';
    IntToStringShape(h);
    SplitOnFirst(hs, 'h', "");
    IntToStringParses(h);
  }

  /** "Mmin" is M minutes. */
  lemma {:induction false} DurationMinutesOnly(m: int)
    ensures DurationMinutes(IntToString(m) + "min") == m
  {
    var ms := IntToString(m);
    var s := ms + "min";
    IntToStringShape(m);
    assert 'h' !in s;
    HasInfixSuffix(ms, "min");
    ReplaceSkips(ms, "min", "min", "");
    assert Replace("min", "min", "") == "";
    assert ms + "" == ms;
    StripUnchanged(ms);
    IntToStringParses(m);
  }

  /** Only the text between the first and the second 'h' is read as minutes. */
  lemma {:induction false} DurationIgnoresLaterPieces(a: string, b: string, c: string)
    requires 'h' !in a && 'h' !in b
    ensures DurationMinutes(a + "h" + b + "h" + c) == DurationMinutes(a + "h" + b)
  {
    var long := a + "h" + b + "h" + c;
    var short := a + "h" + b;
    assert long == a + ['h'] + (b + ['h'] + c);
    assert short == a + ['h'] + b;
    assert long[|a|] == 'h' && short[|a|] == 'h';
    SplitOnFirst(a, 'h', b + ['h'] + c);
    SplitOnFirst(b, 'h', c);
    SplitOnFirst(a, 'h', b);
    SplitOnNone(b, 'h');
  }

  // ---------------------------------------------- strptime('%H:%M')

  /** strptime(s, '%H:%M'): one or two ASCII digits for an hour up to 23, a
      colon, one or two digits for a minute up to 59, and nothing else; the
      value is minutes after midnight, None where strptime raises. */
  function ParseClock(s: string): (r: Option<int>)
    ensures r.Some? ==> 0 <= r.value < 24 * 60
  {
    var parts := SplitOn(s, ':');
    if |parts| != 2 then None
    else
      var h, m := parts[0], parts[1];
      if 1 <= |h| <= 2 && 1 <= |m| <= 2 && AllDigits(h) && AllDigits(m)
         && DigitsValue(h) < 24 && DigitsValue(m) < 60
      then Some(60 * DigitsValue(h) + DigitsValue(m))
      else None
  }

  /** Two-digit zero-padded form, as strftime's %H and %M write it. */
  function TwoDigits(n: nat): (s: string)
    requires n < 100
    ensures |s| == 2 && AllDigits(s) && DigitsValue(s) == n
  {
    var s := [('0' as int + n / 10) as char, ('0' as int + n % 10) as char];
    assert s[..1] == [s[0]] && s[..1][..0] == [];
    assert DigitsValue(s[..1]) == n / 10;
    s
  }

  /** Every clock time "HH:MM" parses back to its minutes. */
  lemma {:induction false} ParseClockRoundTrip(h: nat, m: nat)
    requires h < 24 && m < 60
    ensures ParseClock(TwoDigits(h) + ":" + TwoDigits(m)) == Some(60 * h + m)
  {
    var hs, ms := TwoDigits(h), TwoDigits(m);
    assert hs + ":" + ms == hs + [':'] + ms;
    assert ':' !in hs && ':' !in ms;
    SplitOnFirst(hs, ':', ms);
    SplitOnNone(ms, ':');
  }

  // ------------------------------------------------------------ prices

  /** A decimal number units / 10^scale. */
  datatype Decimal = Decimal(units: int, scale: nat)

  function Pow10(n: nat): (p: nat)
    ensures p >= 1
  {
    if n == 0 then 1 else 10 * Pow10(n - 1)
  }

  predicate Below(a: Decimal, b: Decimal) {
    a.units * Pow10(b.scale) < b.units * Pow10(a.scale)
  }

  /** The number a decimal stands for. */
  function Value(d: Decimal): real {
    d.units as real / Pow10(d.scale) as real
  }

  /** Comparing by cross-multiplication is comparing the numbers. */
  lemma BelowIsLess(a: Decimal, b: Decimal)
    ensures Below(a, b) <==> Value(a) < Value(b)
  {
    CastProduct(a.units, Pow10(b.scale));
    CastProduct(b.units, Pow10(a.scale));
    CrossCompare(a.units as real, Pow10(a.scale) as real, b.units as real, Pow10(b.scale) as real);
  }

  lemma CastProduct(m: int, n: int)
    ensures (m * n) as real == m as real * n as real
  {
  }

  lemma CrossCompare(x: real, p: real, y: real, q: real)
    requires p > 0.0 && q > 0.0
    ensures x / p < y / q <==> x * q < y * p
  {
    var u, v := x / p, y / q;
    assert u * p == x && v * q == y;
    assert x * q == u * (p * q) && y * p == v * (p * q);
    LessScaled(u, v, p * q);
  }

  lemma LessScaled(u: real, v: real, k: real)
    requires k > 0.0
    ensures u < v <==> u * k < v * k
  {
  }


  /** float(s) for decimal notation: optional whitespace, an optional sign,
      digits with at most one '.', at least one digit. */
  function ParseDecimal(s: string): Option<Decimal> {
    var t := Strip(s);
    var signed := t != [] && (t[0] == '-' || t[0] == '+');
    var body := if signed then t[1..] else t;
    var parts := SplitOn(body, '.');
    if |parts| > 2 then None
    else
      var whole := parts[0];
      var fraction := if |parts| == 2 then parts[1] else "";
      if |whole| + |fraction| == 0 || !AllDigits(whole + fraction) then None
      else
        var u: int := DigitsValue(whole + fraction);
        Some(Decimal(if signed && t[0] == '-' then -u else u, |fraction|))
  }

  /** price_str.replace('€', '').replace(',', '.') read by float(). */
  function PriceValue(price: string): Option<Decimal> {
    ParseDecimal(Replace(Replace(price, "\U{20AC}", ""), ",", "."))
  }

  /** The price reads as a number below the threshold. */
  predicate IsBargain(price: string, threshold: Decimal) {
    var v := PriceValue(price);
    v.Some? && Below(v.value, threshold)
  }

  const Missing := "N/D"

  /** The price column: bold with a money bag when the price is a bargain,
      plain escaped text otherwise; a missing price is never a bargain. */
  function PricePart(price: string, threshold: Decimal): (r: string)
    ensures r != [] && (r[0] == '*' <==> IsBargain(price, threshold))
  {
    if IsBargain(price, threshold) then "*\U{1F4B0} Prezzo: a partire da " + Escape(price) + "*"
    else Escape("a partire da " + price)
  }

  /** "N/D" does not read as a number, so it is never a bargain. */
  lemma MissingNotBargain(threshold: Decimal)
    ensures !IsBargain(Missing, threshold)
  {
    assert Replace(Missing, "\U{20AC}", "") == Missing;
    assert Replace(Missing, ",", ".") == Missing;
    StripUnchanged(Missing);
    SplitOnNone(Missing, '.');
    assert !AllDigits(Missing);
  }

  // ----------------------------------------- scrape_results_for_date

  /** One `solution` block of the results page: the texts of its time
      elements, of its duration element and of its price element. */
  datatype TrainRecord = TrainRecord(times: seq<string>, duration: Option<string>, price: Option<string>)

  /** What the browser gave for one date: the records read, and the text of
      the exception raised while reading them, if any (a timeout waiting for
      the results is an exception before the first record). */
  datatype Extraction = Extraction(trains: seq<TrainRecord>, error: Option<string>)

  /** The filters of one search: departure window in minutes after midnight,
      longest duration in minutes, and the price threshold. */
  datatype Search = Search(earliest: int, latest: int, maxDuration: int, threshold: Decimal)

  predicate Complete(t: TrainRecord) {
    |t.times| >= 2 && t.duration.Some?
  }

  /** The train is reported: it has two times and a duration, its departure
      parses as HH:MM inside the window, and it is short enough. */
  predicate Qualifies(t: TrainRecord, f: Search) {
    Complete(t) &&
    var departure := ParseClock(Strip(t.times[0]));
    departure.Some? && f.earliest <= departure.value <= f.latest
    && DurationMinutes(Strip(t.duration.value)) <= f.maxDuration
  }

  function PriceOf(t: TrainRecord): string {
    if t.price.Some? then Strip(t.price.value) else Missing
  }

  /** The line of a reported train up to the price column: the escaped
      departure, arrival and duration between the hand-written clock, arrow
      and parentheses. */
  function Schedule(t: TrainRecord): (r: string)
    requires Complete(t)
    ensures r != [] && r[|r| - 1] == ' '
  {
    "  \U{1F552} " + Escape(Strip(t.times[0])) + " \\-> " + Escape(Strip(t.times[1]))
    + " \\(" + Escape(Strip(t.duration.value)) + "\\) "
  }

  function TrainLine(t: TrainRecord, f: Search): string
    requires Complete(t)
  {
    Schedule(t) + "| " + PricePart(PriceOf(t), f.threshold)
  }

  /** The hand-written parts of a train line leave the reserved character
      '|' without a backslash. */
  lemma TrainLineBareBar(t: TrainRecord, f: Search) returns (i: nat)
    requires Complete(t)
    ensures 0 < i < |TrainLine(t, f)| && TrainLine(t, f)[i] == '|' && TrainLine(t, f)[i - 1] == ' '
  {
    var head := Schedule(t);
    i := |head|;
    assert (head + "| ")[i] == '|';
  }

  /** A train without a price element shows "N/D" in plain text, never in
      the bold bargain form. */
  lemma MissingPriceIsPlain(t: TrainRecord, f: Search)
    requires Complete(t) && t.price.None?
    ensures PriceOf(t) == Missing && PricePart(PriceOf(t), f.threshold)[0] != '*'
  {
    MissingNotBargain(f.threshold);
  }

  /** The filter of scrape_results_for_date, and the line it appends. */
  function Passes(f: Search): TrainRecord -> bool {
    t => Qualifies(t, f)
  }

  function LineOf(f: Search): TrainRecord --> string {
    t requires Complete(t) => TrainLine(t, f)
  }

  /** The trains scrape_results_for_date reports, in page order. */
  function Reported(ts: seq<TrainRecord>, f: Search): (r: seq<TrainRecord>)
    ensures forall i :: 0 <= i < |r| ==> LineOf(f).requires(r[i])
  {
    Filter(ts, Passes(f))
  }

  /** The lines of the reported trains, in page order. */
  function ResultLines(ts: seq<TrainRecord>, f: Search): seq<string> {
    Map(Reported(ts, f), LineOf(f))
  }

  /** Every train that passes the filters has its line among the results. */
  lemma ResultLinesComplete(ts: seq<TrainRecord>, f: Search)
    ensures forall i :: 0 <= i < |ts| && Qualifies(ts[i], f) ==> TrainLine(ts[i], f) in ResultLines(ts, f)
  {
    var k, r := Reported(ts, f), ResultLines(ts, f);
    forall i | 0 <= i < |ts| && Qualifies(ts[i], f)
      ensures TrainLine(ts[i], f) in r
    {
      assert Passes(f)(ts[i]);
      var j :| 0 <= j < |k| && k[j] == ts[i];
      assert r[j] == LineOf(f)(k[j]);
    }
  }

  /** Every reported line is the line of a record that passes. */
  lemma ResultLinesSound(ts: seq<TrainRecord>, f: Search)
    ensures forall l :: l in ResultLines(ts, f) ==>
      exists i :: 0 <= i < |ts| && Qualifies(ts[i], f) && l == TrainLine(ts[i], f)
  {
    var k, r := Reported(ts, f), ResultLines(ts, f);
    forall l | l in r
      ensures exists i :: 0 <= i < |ts| && Qualifies(ts[i], f) && l == TrainLine(ts[i], f)
    {
      var j :| 0 <= j < |r| && r[j] == l;
      assert k[j] in ts && Passes(f)(k[j]);
      var i :| 0 <= i < |ts| && ts[i] == k[j];
      assert r[j] == LineOf(f)(k[j]);
    }
  }

  /** No line is reported exactly when no record passes. */
  lemma ResultLinesEmpty(ts: seq<TrainRecord>, f: Search)
    ensures ResultLines(ts, f) == [] <==> forall i :: 0 <= i < |ts| ==> !Qualifies(ts[i], f)
  {
    if forall i :: 0 <= i < |ts| ==> !Qualifies(ts[i], f) {
      assert forall i :: 0 <= i < |ts| ==> !Passes(f)(ts[i]);
    }
  }

  /** One more record at the end adds its line at the end when it passes,
      and nothing otherwise. */
  lemma ResultLinesSnoc(ts: seq<TrainRecord>, t: TrainRecord, f: Search)
    ensures Qualifies(t, f) ==> ResultLines(ts + [t], f) == ResultLines(ts, f) + [TrainLine(t, f)]
    ensures !Qualifies(t, f) ==> ResultLines(ts + [t], f) == ResultLines(ts, f)
  {
    FilterSnoc(ts, t, Passes(f));
    var k := Reported(ts, f);
    if Qualifies(t, f) {
      assert Passes(f)(t);
      assert Reported(ts + [t], f) == k + [t];
      MapAppend(k, [t], LineOf(f));
      MapSingle(t, LineOf(f));
    } else {
      assert !Passes(f)(t);
      assert Reported(ts + [t], f) == k;
    }
  }

  /** Lines keep page order: the lines of two consecutive stretches of the
      page are the lines of the first stretch followed by those of the second. */
  lemma ResultLinesAppend(a: seq<TrainRecord>, b: seq<TrainRecord>, f: Search)
    ensures ResultLines(a + b, f) == ResultLines(a, f) + ResultLines(b, f)
  {
    FilterAppend(a, b, Passes(f));
    MapAppend(Reported(a, f), Reported(b, f), LineOf(f));
  }

  /** The line appended when no train passes the filters, after
      escape_markdown_v2, with its backslashes written out. */
  const NoTrainLine := "  \\-\\> Nessun treno trovato che soddisfi tutti i filtri per questa data\\."

  function FailureLine(error: string): string {
    Escape("  -> Non \U{E8} stato possibile caricare i risultati. Errore: " + error)
  }

  /** The list scrape_results_for_date returns. */
  function DateResults(x: Extraction, f: Search): (r: seq<string>)
    ensures |r| >= 1
    ensures x.error.Some? ==> r == ResultLines(x.trains, f) + [FailureLine(x.error.value)]
    ensures x.error.None? && (forall i :: 0 <= i < |x.trains| ==> !Qualifies(x.trains[i], f)) ==> r == [NoTrainLine]
    ensures x.error.None? && (exists i :: 0 <= i < |x.trains| && Qualifies(x.trains[i], f)) ==> r == ResultLines(x.trains, f)
  {
    var lines := ResultLines(x.trains, f);
    if x.error.Some? then lines + [FailureLine(x.error.value)]
    else if lines == [] then [NoTrainLine]
    else lines
  }

  /** The body of the loop over the `solution` blocks: a record without two
      times or without a duration is skipped, so is one whose departure
      strptime rejects; otherwise the line is built when the departure is in
      the window and the duration short enough. */
  method ReadTrain(t: TrainRecord, f: Search) returns (line: Option<string>)
    ensures line.Some? <==> Qualifies(t, f)
    ensures line.Some? ==> Complete(t) && line.value == TrainLine(t, f)
  {
    if |t.times| < 2 || t.duration.None? {
      return None;
    }
    var departure := ParseClock(Strip(t.times[0]));
    if departure.None? {
      return None;
    }
    var minutes := DurationMinutes(Strip(t.duration.value));
    if f.earliest <= departure.value <= f.latest && minutes <= f.maxDuration {
      line := Some(TrainLine(t, f));
    } else {
      line := None;
    }
  }

  /** The loop of scrape_results_for_date over the `solution` blocks: a line
      is appended for each train that passes the filters, and the trains
      appended are counted. */
  method ScrapeTrains(trains: seq<TrainRecord>, f: Search) returns (results: seq<string>, found: nat)
    ensures results == ResultLines(trains, f)
    ensures found == |results|
  {
    results, found := [], 0;
    for i := 0 to |trains|
      invariant results == ResultLines(trains[..i], f)
      invariant found == |results|
    {
      TakeSnoc(trains, i);
      results, found := ScrapeTrain(trains[..i], trains[i], f, results, found);
    }
    assert trains[..|trains|] == trains;
  }

  /** One pass of that loop: the train's line is appended, and counted, when
      it passes the filters. */
  method ScrapeTrain(done: seq<TrainRecord>, t: TrainRecord, f: Search, results: seq<string>, found: nat)
    returns (next: seq<string>, count: nat)
    requires results == ResultLines(done, f) && found == |results|
    ensures next == ResultLines(done + [t], f) && count == |next|
  {
    var line := ReadTrain(t, f);
    ResultLinesSnoc(done, t, f);
    next, count := results, found;
    if line.Some? {
      count := found + 1;
      next := results + [line.value];
    }
  }

  /** scrape_results_for_date after the page is loaded: the lines of the
      trains that pass the filters; the sentinel line when none passed, and
      the error line after whatever was appended when reading the page raised. */
  method ScrapeResults(x: Extraction, f: Search) returns (results: seq<string>)
    ensures results == DateResults(x, f)
  {
    var found;
    results, found := ScrapeTrains(x.trains, f);
    if x.error.Some? {
      results := results + [FailureLine(x.error.value)];
    } else if found == 0 {
      results := results + [NoTrainLine];
    }
  }

  // ----------------------------------------------- get_target_weekdays

  /** get_target_weekdays: walks the days from today + startDays to
      today + endDays and keeps, as strftime('%d-%m-%Y') text, those on the
      given weekday, in order. */
  method TargetWeekdays(today: int, startDays: int, endDays: int, weekday: int, format: int -> string)
    returns (dates: seq<string>)
    ensures dates == Map(DaysWithWeekday(today + startDays, today + endDays, weekday), format)
  {
    dates := [];
    var first := today + startDays;
    var last := today + endDays;
    var current := first;
    while current <= last
      invariant first <= current && (current == first || current <= last + 1)
      invariant dates == Map(DaysWithWeekday(first, current - 1, weekday), format)
      decreases last - current
    {
      dates := KeepIfOnWeekday(first, current, weekday, format, dates);
      current := current + 1;
    }
    assert current - 1 == last || DaysWithWeekday(first, last, weekday) == [];
  }

  /** One step of the walk: appends the text of `day` when it falls on the
      weekday. */
  method KeepIfOnWeekday(first: int, day: int, weekday: int, format: int -> string, dates: seq<string>)
    returns (next: seq<string>)
    requires first <= day
    requires dates == Map(DaysWithWeekday(first, day - 1, weekday), format)
    ensures next == Map(DaysWithWeekday(first, day, weekday), format)
  {
    DaysStep(first, day, weekday);
    next := dates;
    if Weekday(day) == weekday {
      MapSnoc(DaysWithWeekday(first, day - 1, weekday), day, format);
      next := dates + [format(day)];
    }
  }

  // ------------------------------------------------------- main_scraper

  /** The two searches: Friday from Rome to Milan, Sunday back. */
  datatype Route = Outbound | Return

  const Price42 := Decimal(420, 1)

  function RouteWeekday(r: Route): int {
    match r
    case Outbound => Friday
    case Return => Sunday
  }

  function RouteSearch(r: Route): Search {
    match r
    case Outbound => Search(16 * 60, 18 * 60 + 30, 200, Price42)
    case Return => Search(14 * 60, 17 * 60, 200, Price42)
  }

  function Heading(r: Route, date: string): string {
    match r
    case Outbound => "*\U{1F684} Ricerca Venerd\U{EC} \\(Roma \\-> Milano\\)*\n*Data: " + Escape(date) + "*"
    case Return => "*\U{1F684} Ricerca Domeniche \\(Milano \\-> Roma\\)*\n*Data: " + Escape(date) + "*"
  }

  /** What the script learns from outside: the day datetime.today() returns
      in the get_target_weekdays call of a route (each call reads the clock
      anew), the text strftime('%d-%m-%Y') gives for a day, and what the
      browser reads for a route and a date text. */
  datatype Browser = Browser(today: Route -> int, formatDate: int -> string, load: (Route, string) -> Extraction)

  const FirstDay := 50
  const LastDay := 120

  function SearchDates(b: Browser, r: Route): seq<string> {
    Map(DaysWithWeekday(b.today(r) + FirstDay, b.today(r) + LastDay, RouteWeekday(r)), b.formatDate)
  }

  /** The message for one date: the heading, then the lines of
      scrape_results_for_date, joined by newlines. */
  function DayReport(b: Browser, r: Route, date: string): string {
    Join("\n", [Heading(r, date)] + DateResults(b.load(r, date), RouteSearch(r)))
  }

  function ReportOf(b: Browser, r: Route): string -> string {
    date => DayReport(b, r, date)
  }

  /** The reports of one route, one per date, in the order of the dates. */
  function RouteReports(b: Browser, r: Route, dates: seq<string>): seq<string> {
    Map(dates, ReportOf(b, r))
  }

  /** Every Friday report, then every Sunday report. */
  function AllReports(b: Browser): seq<string> {
    RouteReports(b, Outbound, SearchDates(b, Outbound)) + RouteReports(b, Return, SearchDates(b, Return))
  }

  /** Which messages were posted and whether a post raised and ended the
      script (requests.post raising propagates out of main_scraper; a
      non-200 answer is only printed). */
  datatype Delivery = Delivery(posted: seq<string>, crashed: bool)

  /** Posting `msgs` in order, where `raises(k)` says whether the k-th post
      (counting from 0) raises. */
  function Deliveries(msgs: seq<string>, creds: Credentials, raises: nat -> bool): (d: Delivery)
    ensures |d.posted| <= |msgs| && d.posted == msgs[..|d.posted|]
    ensures !Configured(creds) ==> d == Delivery([], false)
    ensures Configured(creds) && !d.crashed ==> d.posted == msgs
    ensures d.crashed ==> d.posted != [] && raises(|d.posted| - 1)
    ensures forall k :: 0 <= k < |d.posted| - 1 ==> !raises(k)
    ensures !d.crashed ==> forall k :: 0 <= k < |d.posted| ==> !raises(k)
  {
    if msgs == [] || !Configured(creds) then Delivery([], false)
    else
      var d := Deliveries(msgs[..|msgs| - 1], creds, raises);
      if d.crashed then d
      else
        assert msgs[..|msgs| - 1] + [msgs[|msgs| - 1]] == msgs;
        Delivery(d.posted + [msgs[|msgs| - 1]], raises(|d.posted|))
  }

  /** Posting one more message: it is posted unless an earlier post raised
      or there are no credentials, and then it is the one that may raise. */
  lemma DeliveriesSnoc(msgs: seq<string>, m: string, creds: Credentials, raises: nat -> bool)
    ensures var d := Deliveries(msgs, creds, raises);
      Deliveries(msgs + [m], creds, raises) ==
        if d.crashed || !Configured(creds) then d else Delivery(d.posted + [m], raises(|d.posted|))
  {
    assert (msgs + [m])[..|msgs + [m]| - 1] == msgs;
  }

  /** Once a post has raised, later messages change nothing. */
  lemma {:induction false} DeliveriesStop(msgs: seq<string>, more: seq<string>, creds: Credentials, raises: nat -> bool)
    requires Deliveries(msgs, creds, raises).crashed
    ensures Deliveries(msgs + more, creds, raises) == Deliveries(msgs, creds, raises)
    decreases |more|
  {
    if more != [] {
      var init := more[..|more| - 1];
      AppendAssoc(msgs, init, [more[|more| - 1]]);
      TakeSnoc(more, |more| - 1);
      DeliveriesStop(msgs, init, creds, raises);
      DeliveriesSnoc(msgs + init, more[|more| - 1], creds, raises);
    } else {
      assert msgs + more == msgs;
    }
  }

  /** send_telegram_message: nothing is posted without credentials. */
  method Send(msg: string, creds: Credentials, raises: nat -> bool, sent: seq<string>)
    returns (posted: seq<string>, crashed: bool)
    ensures posted == (if Configured(creds) then sent + [msg] else sent)
    ensures crashed == (Configured(creds) && raises(|sent|))
  {
    if !Configured(creds) {
      return sent, false;
    }
    posted := sent + [msg];
    crashed := raises(|sent|);
  }

  /** The body of one loop of main_scraper: the heading, extended with the
      results for the date, joined by newlines. */
  method DayMessage(b: Browser, r: Route, date: string) returns (message: string)
    ensures message == ReportOf(b, r)(date)
  {
    var report := [Heading(r, date)];
    var results := ScrapeResults(b.load(r, date), RouteSearch(r));
    report := report + results;
    message := Join("\n", report);
  }

  lemma RouteStep(b: Browser, r: Route, dates: seq<string>, i: nat, before: seq<string>)
    requires i < |dates|
    ensures before + RouteReports(b, r, dates[..i + 1]) ==
      (before + RouteReports(b, r, dates[..i])) + [ReportOf(b, r)(dates[i])]
  {
    TakeSnoc(dates, i);
    MapSnoc(dates[..i], dates[i], ReportOf(b, r));
    AppendAssoc(before, RouteReports(b, r, dates[..i]), [ReportOf(b, r)(dates[i])]);
  }

  /** A post that raised ends the block: the later dates change nothing. */
  lemma RouteStop(b: Browser, r: Route, dates: seq<string>, i: nat, before: seq<string>,
                  creds: Credentials, raises: nat -> bool)
    requires i <= |dates|
    requires Deliveries(before + RouteReports(b, r, dates[..i]), creds, raises).crashed
    ensures Deliveries(before + RouteReports(b, r, dates), creds, raises) ==
      Deliveries(before + RouteReports(b, r, dates[..i]), creds, raises)
  {
    var rest := RouteReports(b, r, dates[i..]);
    TakeDrop(dates, i);
    MapAppend(dates[..i], dates[i..], ReportOf(b, r));
    AppendAssoc(before, RouteReports(b, r, dates[..i]), rest);
    DeliveriesStop(before + RouteReports(b, r, dates[..i]), rest, creds, raises);
  }

  /** One pass of that block's loop: the report of the i-th date is built
      and posted. */
  method SearchDate(b: Browser, r: Route, dates: seq<string>, i: nat, creds: Credentials, raises: nat -> bool,
                    ghost before: seq<string>, sent: seq<string>)
    returns (posted: seq<string>, crashed: bool)
    requires i < |dates|
    requires Deliveries(before + RouteReports(b, r, dates[..i]), creds, raises) == Delivery(sent, false)
    ensures Delivery(posted, crashed) == Deliveries(before + RouteReports(b, r, dates[..i + 1]), creds, raises)
  {
    var message := DayMessage(b, r, dates[i]);
    RouteStep(b, r, dates, i, before);
    DeliveriesSnoc(before + RouteReports(b, r, dates[..i]), message, creds, raises);
    posted, crashed := Send(message, creds, raises, sent);
  }

  /** One block of main_scraper: for every date, the report built from the
      heading and the results, then its post. `before` are the messages of
      the earlier blocks and `sent` those of them that were posted. */
  method SearchRoute(b: Browser, r: Route, dates: seq<string>, creds: Credentials, raises: nat -> bool,
                     ghost before: seq<string>, sent: seq<string>)
    returns (posted: seq<string>, crashed: bool)
    requires Deliveries(before, creds, raises) == Delivery(sent, false)
    ensures Delivery(posted, crashed) == Deliveries(before + RouteReports(b, r, dates), creds, raises)
  {
    posted, crashed := sent, false;
    for i := 0 to |dates|
      invariant Delivery(posted, crashed) == Deliveries(before + RouteReports(b, r, dates[..i]), creds, raises)
      invariant !crashed
    {
      posted, crashed := SearchDate(b, r, dates, i, creds, raises, before, posted);
      if crashed {
        RouteStop(b, r, dates, i + 1, before, creds, raises);
        return;
      }
    }
    assert dates[..|dates|] == dates;
  }

  /** The date texts searched for a route: its weekdays between 50 and 120
      days from today. */
  method RouteDates(b: Browser, r: Route) returns (dates: seq<string>)
    ensures dates == SearchDates(b, r)
  {
    dates := TargetWeekdays(b.today(r), FirstDay, LastDay, RouteWeekday(r), b.formatDate);
  }

  /** main_scraper: the Friday reports and then the Sunday reports, each
      posted as soon as it is built, until a post raises. */
  method MainScraper(b: Browser, creds: Credentials, raises: nat -> bool) returns (d: Delivery)
    ensures d == Deliveries(AllReports(b), creds, raises)
    ensures d.posted == AllReports(b)[..|d.posted|]
    ensures Configured(creds) && !d.crashed ==> d.posted == AllReports(b)
    ensures !Configured(creds) ==> d.posted == []
  {
    var fridays := RouteDates(b, Outbound);
    var posted, crashed := SearchRoute(b, Outbound, fridays, creds, raises, [], []);
    ghost var first := RouteReports(b, Outbound, fridays);
    ghost var second := RouteReports(b, Return, SearchDates(b, Return));
    assert AllReports(b) == first + second;
    assert [] + first == first;
    if crashed {
      DeliveriesStop(first, second, creds, raises);
      return Delivery(posted, crashed);
    }
    var sundays := RouteDates(b, Return);
    posted, crashed := SearchRoute(b, Return, sundays, creds, raises, first, posted);
    d := Delivery(posted, crashed);
  }
}
