/** report_prezzi.py: for every Friday and every Sunday of the next
    120 days, the tickets trovaunposto.it lists for that day, assembled into
    one HTML report that is posted to Telegram in pieces of at most 4096
    characters. */
module PriceReport {
  import opened Text
  import opened Lists
  import opened Calendar
  import opened Listing
  import opened Telegram

  // ------------------------------------------------------------ chunking

  /** The longest text one sendMessage call may carry. */
  const MaxLen := 4096

  function Min(a: int, b: int): int {
    if a <= b then a else b
  }

  /** The number of pieces: the length of range(0, len(text), 4096). */
  function ChunkCount(n: nat): nat {
    (n + MaxLen - 1) / MaxLen
  }

  /** `[text[i:i + 4096] for i in range(0, len(text), 4096)]`. */
  function Chunks(text: string): seq<string> {
    seq(ChunkCount(|text|), k requires 0 <= k < ChunkCount(|text|) =>
      text[k * MaxLen .. Min((k + 1) * MaxLen, |text|)])
  }

  /** Every piece holds between 1 and 4096 characters, all but the last
      exactly 4096, and there are ceil(len / 4096) of them, so an empty text
      has none. */
  lemma ChunkSizes(text: string)
    ensures forall k :: 0 <= k < |Chunks(text)| ==> 1 <= |Chunks(text)[k]| <= MaxLen
    ensures forall k :: 0 <= k < |Chunks(text)| - 1 ==> |Chunks(text)[k]| == MaxLen
    ensures (|Chunks(text)| - 1) * MaxLen < |text| <= |Chunks(text)| * MaxLen || (text == [] && Chunks(text) == [])
  {
  }

  lemma {:induction false} ChunksPrefix(text: string, k: nat)
    requires k <= |Chunks(text)|
    ensures Concat(Chunks(text)[..k]) == text[..Min(k * MaxLen, |text|)]
    decreases k
  {
    var r := Chunks(text);
    if k == 0 {
      assert r[..k] == [];
    } else {
      ChunksPrefix(text, k - 1);
      assert r[..k] == r[..k - 1] + [r[k - 1]];
      ConcatSnoc(r[..k - 1], r[k - 1]);
      var a, b := (k - 1) * MaxLen, Min(k * MaxLen, |text|);
      assert a < |text| && Min(a, |text|) == a;
      assert text[..a] + text[a..b] == text[..b];
    }
  }

  /** The pieces concatenate back to the text. */
  lemma ChunksConcat(text: string)
    ensures Concat(Chunks(text)) == text
  {
    var r := Chunks(text);
    ChunksPrefix(text, |r|);
    assert r[..|r|] == r;
    assert text[..Min(|r| * MaxLen, |text|)] == text;
  }

  /** invia_messaggio_telegram: without credentials nothing is posted;
      otherwise every piece is posted in order (an HTTP error on one piece
      is printed and the next is still posted). */
  method SendReport(text: string, creds: Credentials) returns (posted: seq<string>)
    ensures posted == (if Configured(creds) then Chunks(text) else [])
    ensures Configured(creds) ==> Concat(posted) == text
  {
    posted := [];
    if !Configured(creds) {
      return;
    }
    var pieces := Chunks(text);
    for i := 0 to |pieces|
      invariant posted == pieces[..i]
    {
      TakeSnoc(pieces, i);
      posted := posted + [pieces[i]];
    }
    assert pieces[..|pieces|] == pieces;
    ChunksConcat(text);
  }

  // ------------------------------------------------------ ticket listing

  const NoTicketsLine := "  <i>Nessun biglietto trovato</i>"

  /** `  • {orario} | {tratta} | <b>{prezzo}</b>` */
  function ReportLine(t: Ticket): (r: string)
    ensures SingleLine(r)
  {
    var head := [' ', ' ', '\U{2022}', ' '];
    assert SingleLine(head);
    SingleLineAppend(head, TicketText(t));
    head + TicketText(t)
  }

  function ErrorLine(error: string): string {
    "  <i>Errore durante il caricamento: " + error + "</i>"
  }

  /** estrai_biglietti: one line per ticket in page order, the sentinel line
      when the page lists none, the error line when the fetch or the parse
      raised; never an empty list. */
  function TicketLines(page: Page): (r: seq<string>)
    ensures r != []
    ensures page.Loaded? && page.tickets != [] ==> |r| == |page.tickets|
  {
    match page
    case Failed(e) => [ErrorLine(e)]
    case Loaded(tickets) => if tickets == [] then [NoTicketsLine] else Map(tickets, ReportLine)
  }

  /** A loaded page's lines, joined by line feeds as the report does, split
      back into the same lines: each ticket takes exactly one line. */
  lemma TicketLinesSplit(page: Page)
    requires page.Loaded?
    ensures SplitOn(Join("\n", TicketLines(page)), '\n') == TicketLines(page)
  {
    var lines := TicketLines(page);
    forall i | 0 <= i < |lines|
      ensures '\n' !in lines[i]
    {
      if page.tickets != [] {
        assert lines[i] == ReportLine(page.tickets[i]);
        assert SingleLine(lines[i]);
      }
    }
    SplitJoin(lines, '\n');
  }

  /** The loop of estrai_biglietti over the ticket elements. */
  method ExtractTickets(page: Page) returns (lines: seq<string>)
    ensures lines == TicketLines(page)
  {
    match page
    case Failed(e) => lines := [ErrorLine(e)];
    case Loaded(tickets) =>
      if tickets == [] {
        lines := [NoTicketsLine];
        return;
      }
      lines := [];
      for i := 0 to |tickets|
        invariant lines == Map(tickets[..i], ReportLine)
      {
        TakeSnoc(tickets, i);
        MapSnoc(tickets[..i], tickets[i], ReportLine);
        lines := lines + [ReportLine(tickets[i])];
      }
      assert tickets[..|tickets|] == tickets;
  }

  // ------------------------------------------------------------- report

  /** What the script learns from outside: the day date.today() returns in
      the call of genera_report_per_giorno for a weekday (each call reads the
      clock anew), the strftime("%Y-%m-%d") and strftime("%d/%m/%Y") texts
      of a day, and the page behind a URL. */
  datatype Site = Site(today: int -> int, urlDate: int -> string, messageDate: int -> string, fetch: string -> Page)

  /** MESI_DA_CONTROLLARE * 30 days. */
  const Horizon := 4 * 30

  /** The days of genera_report_per_giorno: from today to today + 120. */
  function ReportDays(site: Site, weekday: int): seq<int> {
    DaysWithWeekday(site.today(weekday), site.today(weekday) + Horizon, weekday)
  }

  /** The section of one day: its heading, its ticket lines and a blank line. */
  function Section(site: Site, baseUrl: string, day: int): string {
    "\U{1F5D3}\U{FE0F} <u>" + site.messageDate(day) + "</u>\n"
      + Join("\n", TicketLines(site.fetch(baseUrl + site.urlDate(day)))) + "\n\n"
  }

  function SectionOf(site: Site, baseUrl: string): int -> string {
    day => Section(site, baseUrl, day)
  }

  function Title(title: string): string {
    "<b>" + title + "</b>\n\n"
  }

  /** The report over some days: the title, then the days' sections in order. */
  function ReportOver(site: Site, title: string, baseUrl: string, days: seq<int>): string {
    Title(title) + Concat(Map(days, SectionOf(site, baseUrl)))
  }

  function Report(site: Site, weekday: int, title: string, baseUrl: string): string {
    ReportOver(site, title, baseUrl, ReportDays(site, weekday))
  }

  /** One more day adds its section at the end. */
  lemma ReportOverSnoc(site: Site, title: string, baseUrl: string, days: seq<int>, day: int)
    ensures ReportOver(site, title, baseUrl, days + [day]) ==
      ReportOver(site, title, baseUrl, days) + Section(site, baseUrl, day)
  {
    ConcatMapSnoc(days, day, SectionOf(site, baseUrl));
    AppendAssoc(Title(title), Concat(Map(days, SectionOf(site, baseUrl))), Section(site, baseUrl, day));
  }

  /** Every report starts with its bold title. */
  lemma ReportStartsWithTitle(site: Site, weekday: int, title: string, baseUrl: string)
    ensures |Title(title)| <= |Report(site, weekday, title, baseUrl)|
    ensures Report(site, weekday, title, baseUrl)[..|Title(title)|] == Title(title)
  {
    var rest := Concat(Map(ReportDays(site, weekday), SectionOf(site, baseUrl)));
    assert (Title(title) + rest)[..|Title(title)|] == Title(title);
  }

  /** The first loop of genera_report_per_giorno. */
  method SelectDays(today: int, weekday: int) returns (days: seq<int>)
    ensures days == DaysWithWeekday(today, today + Horizon, weekday)
  {
    days := [];
    var current := today;
    while current <= today + Horizon
      invariant today <= current <= today + Horizon + 1
      invariant days == DaysWithWeekday(today, current - 1, weekday)
      decreases today + Horizon - current
    {
      if Weekday(current) == weekday {
        days := days + [current];
      }
      current := current + 1;
    }
  }

  /** The body of the second loop: heading, ticket lines, blank line. */
  method AddSection(site: Site, baseUrl: string, day: int, report: string) returns (extended: string)
    ensures extended == report + Section(site, baseUrl, day)
  {
    var urlDate, messageDate := site.urlDate(day), site.messageDate(day);
    var heading := "\U{1F5D3}\U{FE0F} <u>" + messageDate + "</u>\n";
    var tickets := ExtractTickets(site.fetch(baseUrl + urlDate));
    var lines := Join("\n", tickets);
    extended := report + (heading + lines + "\n\n");
  }

  /** The second loop of genera_report_per_giorno: the title, then one
      section per selected day. */
  method AddSections(site: Site, title: string, baseUrl: string, days: seq<int>) returns (report: string)
    ensures report == ReportOver(site, title, baseUrl, days)
  {
    report := "<b>" + title + "</b>\n\n";
    assert Map(days[..0], SectionOf(site, baseUrl)) == [];
    for i := 0 to |days|
      invariant report == ReportOver(site, title, baseUrl, days[..i])
    {
      TakeSnoc(days, i);
      ReportOverSnoc(site, title, baseUrl, days[..i], days[i]);
      report := AddSection(site, baseUrl, days[i], report);
    }
    assert days[..|days|] == days;
  }

  /** genera_report_per_giorno. */
  method GenerateReport(site: Site, weekday: int, title: string, baseUrl: string) returns (report: string)
    ensures report == Report(site, weekday, title, baseUrl)
  {
    var days := SelectDays(site.today(weekday), weekday);
    assert days == ReportDays(site, weekday);
    report := AddSections(site, title, baseUrl, days);
  }

  // -------------------------------------------------------- the message

  const FridayTitle := "\U{1F686} ROMA \U{27A1}\U{FE0F} MILANO (Venerd\U{EC})"
  const SundayTitle := "\U{1F686} MILANO \U{27A1}\U{FE0F} ROMA (Domenica)"
  const RomeToMilan := "https://trovaunposto.it/trains/searchTrainTicket?departure=ROMA%28TUTTE+LE+STAZIONI%29&arrival=MILANO%28TUTTE+LE+STAZIONI%29&date="
  const MilanToRome := "https://trovaunposto.it/trains/searchTrainTicket?departure=MILANO%28TUTTE+LE+STAZIONI%29&arrival=ROMA%28TUTTE+LE+STAZIONI%29&date="

  /** Thirty dashes and a blank line between the two reports. */
  const Separator := "------------------------------\n\n"

  /** The Friday report, the separator, the Sunday report. */
  function FinalMessage(site: Site): string {
    Report(site, Friday, FridayTitle, RomeToMilan) + Separator + Report(site, Sunday, SundayTitle, MilanToRome)
  }

  /** The final message is never empty, so with credentials at least one
      piece is posted. */
  lemma FinalMessageNotEmpty(site: Site)
    ensures FinalMessage(site) != [] && Chunks(FinalMessage(site)) != []
  {
    ReportStartsWithTitle(site, Friday, FridayTitle, RomeToMilan);
  }

  /** The `__main__` block: both reports, the concatenation, the send. */
  method RunReport(site: Site, creds: Credentials) returns (posted: seq<string>)
    ensures posted == (if Configured(creds) then Chunks(FinalMessage(site)) else [])
    ensures Configured(creds) ==> Concat(posted) == FinalMessage(site)
  {
    var friday := GenerateReport(site, Friday, FridayTitle, RomeToMilan);
    var sunday := GenerateReport(site, Sunday, SundayTitle, MilanToRome);
    var message := friday + Separator + sunday;
    posted := SendReport(message, creds);
  }
}
