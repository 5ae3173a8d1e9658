# Train and ticket watchers, modelled in Dafny

This project models three small Python scripts that watch Italian train
offers and report them on Telegram. Each script's core is modelled.

- **cerca_treni.py** is the train search. For every Friday (Rome to Milan)
  and every Sunday (Milan to Rome) between 50 and 120 days ahead, it reads
  the train solutions that the booking site lists for that date. It keeps
  the trains whose departure falls in a time window and whose duration is
  short enough, and it formats one MarkdownV2 line per train. Each date's
  report is posted as soon as it is built.
- **report_prezzi.py** is the price report. For every Friday and every
  Sunday from today to today + 120, it lists the tickets trovaunposto.it
  shows and assembles one HTML report. The report is posted in pieces of
  at most 4096 characters.
- **monitor_biglietti.py** is the ticket monitor. It turns one listing into
  a text snapshot and compares it with the snapshot the previous run left
  in a file. It posts a message on the first run or when the snapshot
  changed, and then overwrites the file.

What the scripts read from the outside world becomes input:

- Page contents are the records a parser would extract. Every field is
  optional.
- Dates are Python day ordinals, and strftime texts are given functions.
  Each call that reads the clock gets its own day: one per route in the
  train search and one per weekday in the price report, so a run that
  crosses midnight is covered.
- Credentials are optional strings.
- How a Telegram post ends is a parameter: answered, HTTP error caught, or
  exception raised. In the monitor the exception is raised while the
  payload is built, before anything is posted.

Module layout:

- `text.dfy` (`Text`): the Python string builtins the scripts use.
  - Covered: str.isspace(), strip(), split() on whitespace and on one
    character, join(), replace(), the substring test `in`, int() and str()
    of an int.
  - Choices: whitespace is exactly the str.isspace() set, and int() accepts
    optional whitespace, an optional sign and ASCII digits.
- `lists.dfy` (`Lists`): list comprehensions as filter and map, and
  concatenation.
- `calendar.dfy` (`Calendar`): weekday of a day ordinal, and the days of a
  range on one weekday.
- `markdown.dfy` (`MarkdownV2`): escape_markdown_v2. The reserved set is the
  one listed under "MarkdownV2 style" in the Telegram Bot API formatting
  options.
- `telegram.dfy` (`Telegram`): the credentials guard the three senders
  share.
- `listing.dfy` (`Listing`): the ticket records both trovaunposto.it
  scripts read, the field collapse and the shared part of a ticket line.
- `cerca_treni.dfy` (`TrainSearch`), `report_prezzi.dfy` (`PriceReport`),
  `monitor_biglietti.dfy` (`TicketMonitor`): one module per script.

Imperative code is modelled imperatively, and each method is proved
against a specification function:

- The loops of scrape_results_for_date, get_target_weekdays and
  main_scraper.
- The loops of estrai_biglietti, genera_report_per_giorno and
  invia_messaggio_telegram.
- The snapshot loop of controlla_biglietti.
- The monitor's file state: a class `Monitor` with the file contents and
  the posted messages as fields, and methods that update them.

The properties are stated as lemmas about those specification functions.

`TrainSearch.TrainLineBareBar` records one behaviour of the code as
written. The train line of cerca_treni.py:125 puts a bare `|` between the
schedule and the price, although MarkdownV2 reserves `|`. By the same
reading, the `\->` arrows of lines 125, 154 and 176 escape the `-` but not
the `>`. The model keeps these texts as written.

## Model

| member | source | states |
|---|---|---|
| MarkdownV2.Escape | cerca_treni.py:14-17 | the escaped text is one character longer than the input for each reserved character (a helper fact used by the lemmas below: it never starts with a reserved character) |
| MarkdownV2.EscapedReservedPreceded | cerca_treni.py:16-17 | every reserved character of the escaped text has a backslash immediately before it |
| MarkdownV2.EscapeAppend | cerca_treni.py:17 | escaping works character by character, in order: escaping a + b gives the escape of a followed by the escape of b |
| MarkdownV2.EscapePlain | cerca_treni.py:16-17 | a text with no reserved character is unchanged |
| MarkdownV2.UnescapeEscape | cerca_treni.py:16-17 | deleting each backslash that precedes a reserved character gives back the input, also when the input holds backslashes of its own (the backslash is not escaped) |
| TrainSearch.MinutesPart | cerca_treni.py:67-69 | the minutes named by the piece after the hours: 0 when it holds no "min"; otherwise int() of the piece with every "min" removed and stripped, None where int() raises |
| TrainSearch.DurationMinutes | cerca_treni.py:57-72 | parse_duration is total (it never raises); a text with neither 'h' nor "min" gives 0; 9999 when the text before the first 'h' is not an integer or the minutes part does not parse |
| TrainSearch.MinutesPartOf | cerca_treni.py:68-69 | removing every "min" from " M" + "min" and stripping leaves a text int() reads as M |
| TrainSearch.DurationHoursAndMinutes | cerca_treni.py:61-69 | "Hh Mmin" is 60 * H + M minutes |
| TrainSearch.DurationHoursOnly | cerca_treni.py:61-66 | "Hh" is 60 * H minutes |
| TrainSearch.DurationMinutesOnly | cerca_treni.py:65-69 | "Mmin" is M minutes |
| TrainSearch.DurationIgnoresLaterPieces | cerca_treni.py:62-64 | only the piece between the first and the second 'h' is read as minutes; what follows a second 'h' is ignored |
| TrainSearch.ParseClock | cerca_treni.py:103 | a departure accepted by strptime('%H:%M') is a time of day, between 0 and 1439 minutes after midnight |
| TrainSearch.ParseClockRoundTrip | cerca_treni.py:103 | every zero-padded HH:MM with HH below 24 and MM below 60 parses to 60 * HH + MM |
| TrainSearch.ParseDecimal | cerca_treni.py:116 | float() on decimal notation: optional whitespace and sign, digits with at most one point, at least one digit; anything else is not a number |
| TrainSearch.PriceValue | cerca_treni.py:116 | the price text with every '€' removed and every ',' turned into '.' is read by ParseDecimal |
| TrainSearch.IsBargain | cerca_treni.py:116-117 | the price reads as a number strictly below the threshold |
| TrainSearch.BelowIsLess | cerca_treni.py:117 | the comparison `price_float < price_threshold`, done on decimals by cross-multiplication, holds exactly when the value of the price is below the value of the threshold |
| TrainSearch.PricePart | cerca_treni.py:114-121 | the price column starts with the bold marker '*' exactly when the price reads as a number below the threshold |
| TrainSearch.PriceOf | cerca_treni.py:110-111 | the stripped text of the price element, or "N/D" when the record has none |
| TrainSearch.MissingNotBargain | cerca_treni.py:111-117 | "N/D" does not read as a number, so it is never below the threshold |
| TrainSearch.MissingPriceIsPlain | cerca_treni.py:110-121 | a train without a price element shows "N/D" in the plain form, never the bold one |
| TrainSearch.Schedule | cerca_treni.py:125 | the part of a train line before the price column; helper fact: it ends with a blank, which TrainLineBareBar uses |
| TrainSearch.TrainLineBareBar | cerca_treni.py:125 | a train line has a '|' right after a blank, so the reserved '|' is sent without a backslash |
| TrainSearch.Qualifies | cerca_treni.py:95-108 | a record passes when it has two times and a duration, strptime accepts the stripped departure, the departure is inside the window and the duration is at most the maximum |
| TrainSearch.TrainLine | cerca_treni.py:109-125 | the line of a passing record: the escaped schedule, a bare '|' and the price column |
| TrainSearch.Reported | cerca_treni.py:95-108 | every train kept by the filter has two time elements and a duration element, so its line can be built |
| TrainSearch.ResultLines | cerca_treni.py:91-125 | the lines of the records that pass the filters, one per record, in page order; ScrapeTrains and the lemmas below are stated about it |
| TrainSearch.ResultLinesComplete | cerca_treni.py:91-125 | every train that passes all filters has its line among the results |
| TrainSearch.ResultLinesSound | cerca_treni.py:91-125 | every result line is the line of a train that passes all filters |
| TrainSearch.ResultLinesEmpty | cerca_treni.py:91-125 | there are no result lines exactly when no train passes the filters |
| TrainSearch.ResultLinesSnoc | cerca_treni.py:91-125 | one more train at the end of the page adds its line at the end when it passes, and nothing otherwise |
| TrainSearch.ResultLinesAppend | cerca_treni.py:91-125 | lines keep page order: the lines of two consecutive stretches of the page are those of the first followed by those of the second |
| TrainSearch.NoTrainLine | cerca_treni.py:128 | the sentinel line, escape_markdown_v2 of "  -> Nessun treno trovato che soddisfi tutti i filtri per questa data.", with the backslashes it adds before '-', '>' and '.' written out |
| TrainSearch.FailureLine | cerca_treni.py:131 | escape_markdown_v2 of the error text "  -> Non è stato possibile caricare i risultati. Errore: " followed by the exception text |
| TrainSearch.DateResults | cerca_treni.py:127-131 | there is at least one line; if reading the page raised, one escaped error line follows the lines already produced; otherwise there is exactly one sentinel line when no train passed, and exactly the train lines when some did |
| TrainSearch.ReadTrain | cerca_treni.py:92-108 | a record gives a line exactly when it passes the filters: two times and a duration, a departure strptime accepts inside the window, and a duration at most the maximum; the line is then the train line |
| TrainSearch.ScrapeTrains | cerca_treni.py:90-125 | the loop appends exactly the lines of the passing trains, in page order, and its counter equals the number of lines appended |
| TrainSearch.ScrapeTrain | cerca_treni.py:91-125 | one pass over a record keeps the list equal to the lines of the passing records seen so far, and the counter equal to its length |
| TrainSearch.ScrapeResults | cerca_treni.py:74-133 | the list returned for one date is the one DateResults describes |
| Calendar.Weekday | cerca_treni.py:51 | date.weekday() of a day ordinal, Monday 0 to Sunday 6 |
| Calendar.DaysWithWeekday | cerca_treni.py:49-53 | the days of the inclusive range on the weekday, built day by day from the start as the while loops walk them; its properties are the three lemmas that follow |
| Calendar.DaysSelected | cerca_treni.py:49-53 | every selected day lies in the inclusive range and falls on the weekday |
| Calendar.DaysComplete | cerca_treni.py:49-53 | every day of the inclusive range on the weekday is selected |
| Calendar.DaysAscending | cerca_treni.py:49-53 | the selected days are in strictly increasing order |
| Calendar.NextIsWeekLater | cerca_treni.py:49-53 | the day selected after a selected day is the one a week later |
| Calendar.DaysWeekApart | cerca_treni.py:49-53 | consecutive selected days are exactly 7 days apart |
| TrainSearch.TargetWeekdays | cerca_treni.py:42-55 | the while loop yields the formatted texts of exactly the selected days, in order |
| TrainSearch.KeepIfOnWeekday | cerca_treni.py:50-52 | one loop step appends the day's text exactly when the day falls on the weekday, keeping the list equal to the texts of the days walked so far |
| TrainSearch.Send | cerca_treni.py:19-40 | nothing is posted without a token and a chat id; otherwise the message is posted, and whether the post raised is reported |
| TrainSearch.Deliveries | cerca_treni.py:19-40 | the posted messages are a prefix of the reports; none without credentials; all of them when no post raised; after a raise, the last posted one is the one that raised and none before it did |
| TrainSearch.DeliveriesSnoc | cerca_treni.py:168 | one more report is posted after the others unless a post already raised or the credentials are missing |
| TrainSearch.DeliveriesStop | cerca_treni.py:36 | once a post raised, later reports change nothing: the exception ends main_scraper |
| TrainSearch.RouteWeekday | cerca_treni.py:150 | the Friday search (weekday 4) for the outbound route, and the Sunday search (weekday 6, line 172) for the return route |
| TrainSearch.RouteSearch | cerca_treni.py:163-166 | the filters of a route: 16:00 to 18:30 outbound, 14:00 to 17:00 on the return (lines 185-188), at most 200 minutes, price threshold 42.0 |
| TrainSearch.SearchDates | cerca_treni.py:150 | the texts of the route's weekdays between its own today + 50 and today + 120, in order (line 172 for the return route) |
| TrainSearch.Heading | cerca_treni.py:154 | the first line of a date's report, the Friday form here and the Sunday form of line 176, with the date text escaped |
| TrainSearch.DayMessage | cerca_treni.py:154-168 | the message of a date is its heading followed by the lines of scrape_results_for_date, joined by line feeds |
| TrainSearch.DayReport | cerca_treni.py:154-168 | the message of one date: the heading, then the lines scrape_results_for_date returns for the route's filters, joined by line feeds |
| TrainSearch.RouteReports | cerca_treni.py:153-169 | the reports of one route, one per date, in the order of the dates |
| TrainSearch.SearchRoute | cerca_treni.py:153-169 | one block of main_scraper posts the date reports in order and stops at the first post that raises |
| TrainSearch.SearchDate | cerca_treni.py:154-168 | one pass builds the report of the next date and posts it, extending the deliveries of the dates before it by exactly that message |
| TrainSearch.RouteDates | cerca_treni.py:150 | the searched dates are the route's weekdays between 50 and 120 days ahead |
| TrainSearch.AllReports | cerca_treni.py:148-191 | every Friday report, then every Sunday report: the messages main_scraper would post if no post raised |
| TrainSearch.MainScraper | cerca_treni.py:148-191 | the Friday reports and then the Sunday reports, each route's dates taken from its own clock read, are posted in order until a post raises; nothing without credentials; all of them when no post raises |
| PriceReport.Chunks | report_prezzi.py:31 | the slices text[i:i + 4096] for i = 0, 4096, ... below the length; the two lemmas that follow state their sizes and that they concatenate back |
| PriceReport.ChunkSizes | report_prezzi.py:28-31 | every piece has between 1 and 4096 characters, all but the last exactly 4096, and there are ceil(length / 4096) of them, so an empty text gives none |
| PriceReport.ChunksConcat | report_prezzi.py:31 | the pieces concatenate back to the text exactly |
| PriceReport.SendReport | report_prezzi.py:21-45 | nothing is posted without a token and a chat id; otherwise exactly the pieces are posted, in order, and together they are the text |
| Text.Collapse | report_prezzi.py:66-68 | `" ".join(s.strip().split())`: the words of the stripped text joined by single spaces |
| Text.ParseInt | cerca_treni.py:62 | int() of a text: optional whitespace around an optional sign and ASCII digits; None for anything else, including a blank text |
| Listing.Field | report_prezzi.py:66-68 | a field holds no line break, and a missing element gives "N/D" |
| Listing.FieldCollapsed | report_prezzi.py:66-68 | a field has no leading or trailing whitespace, and its only whitespace is single spaces between words |
| Listing.FieldIdempotent | report_prezzi.py:66-68 | collapsing a field again changes nothing |
| Listing.TicketText | report_prezzi.py:70 | the time, route and price part of a ticket line is a single line |
| PriceReport.NoTicketsLine | report_prezzi.py:58 | the line of a page that lists no ticket: "  <i>Nessun biglietto trovato</i>" |
| PriceReport.ErrorLine | report_prezzi.py:75 | the line of a page whose fetch or parse raised: the exception text inside "  <i>Errore durante il caricamento: " and "</i>" |
| PriceReport.ReportLine | report_prezzi.py:70 | a ticket line of the report is a single line |
| PriceReport.TicketLines | report_prezzi.py:48-75 | estrai_biglietti never returns an empty list, and a page with tickets gives one line per ticket |
| PriceReport.TicketLinesSplit | report_prezzi.py:101 | joined by line feeds as the report joins them, the lines of a loaded page split back into the same lines, so each ticket takes exactly one line of the report |
| PriceReport.ExtractTickets | report_prezzi.py:56-75 | the loop gives the listing's lines: one per ticket in page order, the sentinel when there is none, the error line when loading raised |
| PriceReport.SelectDays | report_prezzi.py:80-88 | the selected days are exactly the days from today to today + 120 on the weekday, in ascending order |
| PriceReport.ReportDays | report_prezzi.py:78-88 | the days of genera_report_per_giorno: those on the weekday from the call's own today to today + 120, in order |
| PriceReport.Section | report_prezzi.py:93-102 | the section of one day: the calendar heading with the strftime("%d/%m/%Y") text, the ticket lines of its page joined by line feeds, and a blank line |
| PriceReport.Title | report_prezzi.py:90 | the bold title followed by a blank line |
| PriceReport.ReportOver | report_prezzi.py:90-104 | the report over some days: the title, then each day's section, in the order of the days |
| PriceReport.Report | report_prezzi.py:76-106 | genera_report_per_giorno: the report over the selected days; GenerateReport is proved equal to it |
| PriceReport.ReportOverSnoc | report_prezzi.py:92-102 | each further day appends its section at the end of the report |
| PriceReport.ReportStartsWithTitle | report_prezzi.py:90 | every report starts with its bold title and a blank line |
| PriceReport.AddSection | report_prezzi.py:93-102 | one loop step appends the day's heading, its ticket lines joined by line feeds, and a blank line |
| PriceReport.AddSections | report_prezzi.py:88-104 | starting from the bold title, the loop appends one section per day, in the order of the days |
| PriceReport.GenerateReport | report_prezzi.py:78-106 | the report is the title followed by the section of each selected day, in order |
| PriceReport.FinalMessage | report_prezzi.py:112-115 | the Friday report, thirty dashes and a blank line, then the Sunday report, each report over the days of its own clock read |
| PriceReport.FinalMessageNotEmpty | report_prezzi.py:115 | the final message is never empty, so with credentials at least one piece is posted |
| PriceReport.RunReport | report_prezzi.py:109-118 | the pieces posted are those of the Friday report, the dashed separator and the Sunday report, each report over the days from its own read of the clock; with credentials they concatenate to that message, and without them nothing is posted |
| TicketMonitor.SnapshotLine | monitor_biglietti.py:88-92 | a snapshot line is a single line that starts with the bullet |
| TicketMonitor.Snapshot | monitor_biglietti.py:78-94 | the snapshot is the sentinel exactly when the page lists no ticket; a page with tickets never reads as the sentinel |
| TicketMonitor.SnapshotLines | monitor_biglietti.py:83-94 | a snapshot with tickets splits on line feeds into one line per ticket, in page order |
| TicketMonitor.SnapshotNoReturn | monitor_biglietti.py:92-94 | a snapshot holds no carriage return |
| TicketMonitor.BuildSnapshot | monitor_biglietti.py:78-94 | the loop and the join give the snapshot |
| TicketMonitor.ReadText | monitor_biglietti.py:19-20 | text-mode reading with universal newlines: "\r\n" and a lone "\r" become "\n", so the text never grows |
| TicketMonitor.ReadTextPlain | monitor_biglietti.py:19-20 | text without a carriage return reads back from a text-mode file as written |
| TicketMonitor.Previous | monitor_biglietti.py:16-22 | the previous snapshot is missing exactly when the file does not exist; an existing file, even an empty one, gives its text |
| TicketMonitor.SavedSnapshotReadsBack | monitor_biglietti.py:16-27 | a saved snapshot is read back unchanged |
| TicketMonitor.StartMessage | monitor_biglietti.py:99 | the first-run message: the check mark, "Monitoraggio avviato", "Biglietti trovati:" and the snapshot |
| TicketMonitor.ChangeMessage | monitor_biglietti.py:103 | the change message: "Variazione Biglietti Rilevata!" between two exclamation marks, "Nuovi dati:" and the snapshot |
| TicketMonitor.ErrorMessage | monitor_biglietti.py:113 | the error message: the skull, "Errore nello script di monitoraggio:", a line feed and the exception text |
| TicketMonitor.Notice | monitor_biglietti.py:96-107 | no message exactly when the previous snapshot equals the current one; a message always ends with the current snapshot |
| TicketMonitor.HasUrl | monitor_biglietti.py:64 | `if not URL` fails exactly when the URL is missing or empty |
| TicketMonitor.Post | monitor_biglietti.py:32-60 | one more send appends the message to the posted messages only with credentials and when the send does not raise before its post |
| TicketMonitor.Escaped | monitor_biglietti.py:32-60 | a send lets an exception escape exactly when the credentials are set and the send raises before its post |
| TicketMonitor.Try | monitor_biglietti.py:70-109 | the try block: snapshot, decision, send and save; a failed page or a send that raises ends it before the save, with the messages posted so far |
| TicketMonitor.Run | monitor_biglietti.py:62-113 | controlla_biglietti: the messages posted before stay a prefix; the file ends unchanged or holding the current snapshot; an exception escapes only from the error message's send, with credentials, and then the file is unchanged |
| TicketMonitor.RunWithoutUrl | monitor_biglietti.py:64-66 | without a URL there is no fetch, no message and no change to the file |
| TicketMonitor.FirstRun | monitor_biglietti.py:98-101 | with no file and a send that does not raise, exactly the start message (ending with the snapshot) is posted, given credentials, and the snapshot is saved |
| TicketMonitor.ChangedRun | monitor_biglietti.py:102-105 | with a send that does not raise, a stored snapshot that differs leads to exactly the change message (ending with the snapshot), given credentials, and the snapshot is saved |
| TicketMonitor.UnchangedRun | monitor_biglietti.py:106-109 | an unchanged snapshot posts nothing, whatever the credentials and the send outcomes, and the file keeps the same text |
| TicketMonitor.SaveReached | monitor_biglietti.py:109 | whenever the save is reached, the file becomes the current snapshot and nothing escapes: no message due, message delivered, HTTP error swallowed, or credentials missing |
| TicketMonitor.FetchFailureKeepsFile | monitor_biglietti.py:111-113 | a fetch or parse that raises keeps the file; given credentials, the error message is posted unless its own send raises before the post, and then that exception escapes |
| TicketMonitor.SendFailureKeepsFile | monitor_biglietti.py:101-113 | a send that raises skips the save: the file is kept, the notice is not posted, and the error message is posted unless its own send raises too, in which case that exception escapes |
| TicketMonitor.NothingEverPosted | monitor_biglietti.py:53 | as written, with credentials every send raises NameError before its post (`json` is never imported): nothing is ever posted; when a message is due, or the page fails, the file is kept and the NameError escapes; otherwise the snapshot is saved and nothing escapes |
| TicketMonitor.SecondRunQuiet | monitor_biglietti.py:16-27 | after a run that saved its snapshot, a second run on the same page posts nothing and leaves the file as it was |
| TicketMonitor.Monitor.Read | monitor_biglietti.py:16-22 | reading gives the previous snapshot as Previous describes |
| TicketMonitor.Monitor.Save | monitor_biglietti.py:24-27 | the file holds exactly the data, and nothing else changes |
| TicketMonitor.Monitor.Send | monitor_biglietti.py:30-60 | nothing is posted without credentials; an exception while the payload is built is returned and nothing is posted; otherwise the message is posted and a caught HTTP error is swallowed |
| TicketMonitor.Monitor.Check | monitor_biglietti.py:62-113 | the file and the posted messages after a run, and the exception that escapes it, are those Run describes |

## Left out

- The Selenium browser and its 20-second wait (cerca_treni.py:78-88, 137-146, 193-195) are not modelled. Each date instead yields the records read and the text of the exception raised inside the try block of cerca_treni.py:80-131.
- TrainSearch.MainScraper: `driver.get` at cerca_treni.py:78 is outside that try block. If it raises, scrape_results_for_date and main_scraper end at once, and only the `finally` of lines 193-195 runs. The model has no such case: only a post that raises ends the run early.
- BeautifulSoup and its CSS selectors are not modelled. Pages are sequences of records with optional field texts.
- The search URLs and parameters of cerca_treni.py:77 and 155-161, 177-183 are not modelled: the browser is keyed by the route and the date text. The trovaunposto.it URLs of report_prezzi.py are modelled, because they select the page.
- HTTP calls, `time.sleep`, `print` and `os.environ` are not modelled. They become parameters: credentials, fetched pages, and how each post ends.
- TrainSearch.Send: a non-200 answer is only printed, so it is not distinguished from success.
- PriceReport.SendReport: exceptions other than RequestException from requests.post are not modelled. Each piece is taken as posted.
- `datetime.today()`, `date.today()` and `strftime` are inputs. Each clock read is a day ordinal: one per get_target_weekdays call (cerca_treni.py:45) and one per genera_report_per_giorno call (report_prezzi.py:78). strftime is a function from a day to its text. The time of day plays no part in the comparisons, because start and end share it.
- TrainSearch.ParseClock: strptime's `\d` also matches non-ASCII digits. Those are not accepted here.
- Text.ParseInt: int() also accepts non-ASCII digits and underscores between digits. Those are not accepted here.
- TrainSearch.ParseDecimal, TrainSearch.IsBargain: float() is modelled as exact decimal arithmetic on decimal notation with an optional point. Binary rounding is not modelled. Exponents, "inf", "nan" and underscores all count as not a number.
- TrainSearch.DurationHoursAndMinutes, TrainSearch.DurationHoursOnly, TrainSearch.DurationMinutesOnly: the exact sum is proved for integers written as str() writes them. Other spellings int() accepts (signs, leading zeros, whitespace) are covered only by the general definition.
- TicketMonitor.Monitor.Send: the inline-keyboard JSON is not modelled. The `json.dumps` call at monitor_biglietti.py:53 raises NameError whenever credentials are set, because `json` is never imported. This is the outcome `Raises`: it escapes before `requests.post`, so nothing is posted. The outcomes `Delivered` and `Swallowed` are kept for a script that imports `json`. TicketMonitor.NothingEverPosted states what the script does as written.
- File errors other than a missing file are not modelled. This covers permission, decoding and write failures in monitor_biglietti.py:16-27. Text is modelled as characters, so UTF-8 encoding plays no part.
- The monitor has no heartbeat timer and no save-only-after-delivery rule, and the model adds neither. The file is saved even when the HTTP error of a send was swallowed.
- Concurrency does not arise: all three scripts are sequential.
