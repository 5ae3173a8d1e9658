/** monitor_biglietti.py: one run fetches the monitored listing, turns it
    into a text snapshot, compares it with the snapshot the previous run left
    in dati_biglietti.txt, posts a Telegram message when there was none or it
    differs, and then overwrites the file with the new snapshot. */
module TicketMonitor {
  import opened Text
  import opened Lists
  import opened Listing
  import opened Telegram

  // ----------------------------------------------------------- snapshot

  /** The snapshot of a page without tickets. */
  const NoTickets := "Nessun biglietto disponibile."

  const Bullet := '\U{2022}'

  /** `• {orario} | {tratta} | <b>{prezzo}</b>` */
  function SnapshotLine(t: Ticket): (r: string)
    ensures SingleLine(r) && r != [] && r[0] == Bullet
  {
    var head := [Bullet, ' '];
    assert SingleLine(head);
    SingleLineAppend(head, TicketText(t));
    head + TicketText(t)
  }

  /** The snapshot: the ticket lines joined by line feeds, or the sentinel
      when there is no ticket; a page with tickets never reads as the
      sentinel, since each of its lines starts with the bullet. */
  function Snapshot(tickets: seq<Ticket>): (r: string)
    ensures r == NoTickets <==> tickets == []
  {
    if tickets == [] then NoTickets
    else
      var lines := Map(tickets, SnapshotLine);
      JoinStartsWith("\n", lines);
      assert Join("\n", lines)[0] == lines[0][0] == Bullet;
      Join("\n", lines)
  }

  /** A snapshot with tickets has one line per ticket, in page order. */
  lemma SnapshotLines(tickets: seq<Ticket>)
    requires tickets != []
    ensures SplitOn(Snapshot(tickets), '\n') == Map(tickets, SnapshotLine)
    ensures |SplitOn(Snapshot(tickets), '\n')| == |tickets|
  {
    var lines := Map(tickets, SnapshotLine);
    forall i | 0 <= i < |lines|
      ensures '\n' !in lines[i]
    {
      assert SingleLine(lines[i]);
    }
    SplitJoin(lines, '\n');
  }

  /** Lines without a line break, joined by line feeds, hold no carriage
      return. */
  lemma {:induction false} JoinNoReturn(lines: seq<string>)
    requires forall i :: 0 <= i < |lines| ==> SingleLine(lines[i])
    ensures forall i :: 0 <= i < |Join("\n", lines)| ==> Join("\n", lines)[i] != '\r'
  {
    if |lines| > 1 {
      JoinNoReturn(lines[1..]);
      var rest := Join("\n", lines[1..]);
      assert Join("\n", lines) == (lines[0] + "\n") + rest;
      forall i | 0 <= i < |Join("\n", lines)|
        ensures Join("\n", lines)[i] != '\r'
      {
        if i < |lines[0]| + 1 {
          assert Join("\n", lines)[i] == (lines[0] + "\n")[i];
        } else {
          assert Join("\n", lines)[i] == rest[i - |lines[0]| - 1];
        }
      }
    } else if |lines| == 1 {
      assert SingleLine(lines[0]);
    }
  }

  lemma SnapshotNoReturn(tickets: seq<Ticket>)
    ensures forall i :: 0 <= i < |Snapshot(tickets)| ==> Snapshot(tickets)[i] != '\r'
  {
    if tickets != [] {
      JoinNoReturn(Map(tickets, SnapshotLine));
    }
  }

  /** The loop of controlla_biglietti that builds lista_dettagli, followed
      by the join (or the sentinel when the page has no ticket). */
  method BuildSnapshot(tickets: seq<Ticket>) returns (snapshot: string)
    ensures snapshot == Snapshot(tickets)
  {
    var lines: seq<string> := [];
    if tickets == [] {
      snapshot := NoTickets;
    } else {
      for i := 0 to |tickets|
        invariant lines == Map(tickets[..i], SnapshotLine)
      {
        TakeSnoc(tickets, i);
        MapSnoc(tickets[..i], tickets[i], SnapshotLine);
        lines := lines + [SnapshotLine(tickets[i])];
      }
      assert tickets[..|tickets|] == tickets;
      snapshot := Join("\n", lines);
    }
  }

  // ------------------------------------------------------------ the file

  /** f.read() on a file opened in text mode: "\r\n" and a lone "\r" both
      read as "\n". */
  function ReadText(raw: string): (r: string)
    ensures |r| <= |raw|
  {
    if raw == [] then []
    else if raw[0] == '\r' then
      "\n" + ReadText(if |raw| > 1 && raw[1] == '\n' then raw[2..] else raw[1..])
    else [raw[0]] + ReadText(raw[1..])
  }

  /** Text without a carriage return reads back as written. */
  lemma {:induction false} ReadTextPlain(raw: string)
    requires forall i :: 0 <= i < |raw| ==> raw[i] != '\r'
    ensures ReadText(raw) == raw
  {
    if raw != [] {
      ReadTextPlain(raw[1..]);
      ConsSplit(raw);
    }
  }

  /** leggi_dati_precedenti: None when the file does not exist, its text
      otherwise, even when it is empty. */
  function Previous(file: Option<string>): (r: Option<string>)
    ensures r.None? <==> file.None?
  {
    match file
    case None => None
    case Some(raw) => Some(ReadText(raw))
  }

  /** A snapshot that was saved reads back unchanged. */
  lemma SavedSnapshotReadsBack(tickets: seq<Ticket>)
    ensures Previous(Some(Snapshot(tickets))) == Some(Snapshot(tickets))
  {
    SnapshotNoReturn(tickets);
    ReadTextPlain(Snapshot(tickets));
  }

  // ------------------------------------------------------------ messages

  function StartMessage(snapshot: string): string {
    "\U{2705} <b>Monitoraggio avviato</b>\n\n<b>Biglietti trovati:</b>\n" + snapshot
  }

  function ChangeMessage(snapshot: string): string {
    "\U{2757}\U{FE0F}<b>Variazione Biglietti Rilevata!</b>\U{2757}\U{FE0F}\n\n<b>Nuovi dati:</b>\n" + snapshot
  }

  function ErrorMessage(error: string): string {
    "\U{2620}\U{FE0F} Errore nello script di monitoraggio:\n" + error
  }

  predicate EndsWith(s: string, t: string) {
    |t| <= |s| && s[|s| - |t|..] == t
  }

  /** The three-way decision: the start message when there was no previous
      snapshot, the change message when it differs, nothing when it is the
      same; a message always ends with the current snapshot. */
  function Notice(previous: Option<string>, current: string): (r: Option<string>)
    ensures r.None? <==> previous == Some(current)
    ensures r.Some? ==> EndsWith(r.value, current)
  {
    if previous.None? then
      assert StartMessage(current)[|StartMessage(current)| - |current|..] == current;
      Some(StartMessage(current))
    else if current != previous.value then
      assert ChangeMessage(current)[|ChangeMessage(current)| - |current|..] == current;
      Some(ChangeMessage(current))
    else None
  }

  // ------------------------------------------------------------- sending

  /** How one call of invia_messaggio_telegram with credentials ends: the
      post is answered, a RequestException is caught and printed, or an
      exception escapes while the payload is built, before requests.post is
      called (the NameError of `json.dumps`). */
  datatype Outcome = Delivered | Swallowed | Raises(error: string)

  /** The messages posted to the Bot API after one more send: none without
      credentials, and none when the send raises before its post. */
  function Post(posted: seq<string>, creds: Credentials, message: string, outcome: Outcome): seq<string> {
    if Configured(creds) && !outcome.Raises? then posted + [message] else posted
  }

  /** The exception a send lets escape. */
  function Escaped(creds: Credentials, outcome: Outcome): (r: Option<string>)
    ensures r.Some? <==> Configured(creds) && outcome.Raises?
  {
    if Configured(creds) && outcome.Raises? then Some(outcome.error) else None
  }

  // ------------------------------------------------------------- one run

  /** `if not URL`. */
  predicate HasUrl(url: Option<string>) {
    url.Some? && url.value != ""
  }

  /** What a run leaves: the file, every message posted so far, and the
      exception that escaped the script, if any. */
  datatype After = After(file: Option<string>, posted: seq<string>, escaped: Option<string>)

  /** How the try block of controlla_biglietti ends. */
  datatype Attempt = Finished(file: Option<string>, posted: seq<string>) | Raised(error: string, posted: seq<string>)

  /** The try block: snapshot, decision, send (with outcome `notice`),
      save; an exception skips everything after it. */
  function Try(file: Option<string>, posted: seq<string>, page: Page, creds: Credentials, notice: Outcome): Attempt {
    match page
    case Failed(e) => Raised(e, posted)
    case Loaded(tickets) =>
      var current := Snapshot(tickets);
      match Notice(Previous(file), current)
      case None => Finished(Some(current), posted)
      case Some(message) =>
        var sent := Post(posted, creds, message, notice);
        match Escaped(creds, notice)
        case Some(e) => Raised(e, sent)
        case None => Finished(Some(current), sent)
  }

  /** controlla_biglietti: nothing without a URL; otherwise the try block,
      and when it raises, the error message (sent with outcome `alarm`). */
  function Run(file: Option<string>, posted: seq<string>, url: Option<string>, page: Page,
               creds: Credentials, notice: Outcome, alarm: Outcome): (r: After)
    ensures |posted| <= |r.posted| && r.posted[..|posted|] == posted
    ensures r.file == file || (page.Loaded? && r.file == Some(Snapshot(page.tickets)))
    ensures r.escaped.Some? ==> Configured(creds) && alarm.Raises? && r.file == file
  {
    if !HasUrl(url) then After(file, posted, None)
    else
      match Try(file, posted, page, creds, notice)
      case Finished(saved, sent) => After(saved, sent, None)
      case Raised(e, sent) => After(file, Post(sent, creds, ErrorMessage(e), alarm), Escaped(creds, alarm))
  }

  /** Without a URL nothing is fetched, posted or saved. */
  lemma RunWithoutUrl(file: Option<string>, posted: seq<string>, url: Option<string>, page: Page,
                      creds: Credentials, notice: Outcome, alarm: Outcome)
    requires !HasUrl(url)
    ensures Run(file, posted, url, page, creds, notice, alarm) == After(file, posted, None)
  {
  }

  /** The first run posts exactly the start message, ending with the
      snapshot, and saves the snapshot. */
  lemma FirstRun(posted: seq<string>, url: Option<string>, tickets: seq<Ticket>,
                 creds: Credentials, notice: Outcome, alarm: Outcome)
    requires HasUrl(url) && !notice.Raises?
    ensures var r := Run(None, posted, url, Loaded(tickets), creds, notice, alarm);
      r.file == Some(Snapshot(tickets)) && r.escaped.None? &&
      r.posted == Post(posted, creds, StartMessage(Snapshot(tickets)), notice) &&
      EndsWith(StartMessage(Snapshot(tickets)), Snapshot(tickets))
  {
    assert Notice(Previous(None), Snapshot(tickets)) == Some(StartMessage(Snapshot(tickets)));
  }

  /** A snapshot that differs from the stored one posts exactly the change
      message, ending with the snapshot, and saves the snapshot. */
  lemma ChangedRun(raw: string, posted: seq<string>, url: Option<string>, tickets: seq<Ticket>,
                   creds: Credentials, notice: Outcome, alarm: Outcome)
    requires HasUrl(url) && !notice.Raises? && ReadText(raw) != Snapshot(tickets)
    ensures var r := Run(Some(raw), posted, url, Loaded(tickets), creds, notice, alarm);
      r.file == Some(Snapshot(tickets)) && r.escaped.None? &&
      r.posted == Post(posted, creds, ChangeMessage(Snapshot(tickets)), notice) &&
      EndsWith(ChangeMessage(Snapshot(tickets)), Snapshot(tickets))
  {
    assert Notice(Previous(Some(raw)), Snapshot(tickets)) == Some(ChangeMessage(Snapshot(tickets)));
  }

  /** An unchanged snapshot posts nothing, whatever the credentials and the
      send outcomes, and the file is rewritten with the same text. */
  lemma UnchangedRun(raw: string, posted: seq<string>, url: Option<string>, tickets: seq<Ticket>,
                     creds: Credentials, notice: Outcome, alarm: Outcome)
    requires HasUrl(url) && ReadText(raw) == Snapshot(tickets)
    ensures Run(Some(raw), posted, url, Loaded(tickets), creds, notice, alarm) ==
      After(Some(Snapshot(tickets)), posted, None)
  {
  }

  /** Whenever the save is reached the file becomes the snapshot: when no
      message is due, when it is delivered, when its HTTP error is
      swallowed and when the credentials are missing. */
  lemma SaveReached(file: Option<string>, posted: seq<string>, url: Option<string>, tickets: seq<Ticket>,
                    creds: Credentials, notice: Outcome, alarm: Outcome)
    requires HasUrl(url)
    requires !notice.Raises? || !Configured(creds) || Previous(file) == Some(Snapshot(tickets))
    ensures Run(file, posted, url, Loaded(tickets), creds, notice, alarm).file == Some(Snapshot(tickets))
    ensures Run(file, posted, url, Loaded(tickets), creds, notice, alarm).escaped.None?
  {
  }

  /** A fetch or parse that raises keeps the file and leads to the error
      message, which is posted unless its own send raises. */
  lemma FetchFailureKeepsFile(file: Option<string>, posted: seq<string>, url: Option<string>, error: string,
                              creds: Credentials, notice: Outcome, alarm: Outcome)
    requires HasUrl(url)
    ensures Run(file, posted, url, Failed(error), creds, notice, alarm) ==
      After(file, Post(posted, creds, ErrorMessage(error), alarm), Escaped(creds, alarm))
  {
  }

  /** A send that raises skips the save: the file is kept, the notice is
      not posted, and the error message is posted unless its own send
      raises too. */
  lemma SendFailureKeepsFile(file: Option<string>, posted: seq<string>, url: Option<string>, tickets: seq<Ticket>,
                             creds: Credentials, error: string, alarm: Outcome)
    requires HasUrl(url) && Configured(creds)
    requires Previous(file) != Some(Snapshot(tickets))
    ensures var r := Run(file, posted, url, Loaded(tickets), creds, Raises(error), alarm);
      r.file == file &&
      r.posted == posted + (if alarm.Raises? then [] else [ErrorMessage(error)]) &&
      r.escaped == Escaped(creds, alarm)
  {
    assert Try(file, posted, Loaded(tickets), creds, Raises(error)) == Raised(error, posted);
  }

  /** With credentials every send of the script raises before its post,
      since `json` is never imported: no message is ever posted, the file
      is saved only when no message is due, and otherwise the NameError of
      the error message escapes. */
  lemma NothingEverPosted(file: Option<string>, posted: seq<string>, url: Option<string>, page: Page,
                          creds: Credentials, nameError: string)
    requires Configured(creds)
    ensures var r := Run(file, posted, url, page, creds, Raises(nameError), Raises(nameError));
      r.posted == posted &&
      (HasUrl(url) && (page.Failed? || Previous(file) != Some(Snapshot(page.tickets))) ==>
        r.file == file && r.escaped == Some(nameError)) &&
      (HasUrl(url) && page.Loaded? && Previous(file) == Some(Snapshot(page.tickets)) ==>
        r.file == Some(Snapshot(page.tickets)) && r.escaped.None?)
  {
    if HasUrl(url) && page.Loaded? && Previous(file) != Some(Snapshot(page.tickets)) {
      assert Try(file, posted, page, creds, Raises(nameError)) == Raised(nameError, posted);
    }
  }

  /** A second run on the same page after a run that saved its snapshot
      posts nothing and leaves the file as it was. */
  lemma SecondRunQuiet(file: Option<string>, posted: seq<string>, url: Option<string>, tickets: seq<Ticket>,
                       creds: Credentials, notice: Outcome, alarm: Outcome, notice2: Outcome, alarm2: Outcome)
    requires Run(file, posted, url, Loaded(tickets), creds, notice, alarm).file == Some(Snapshot(tickets))
    ensures var r := Run(file, posted, url, Loaded(tickets), creds, notice, alarm);
      Run(r.file, r.posted, url, Loaded(tickets), creds, notice2, alarm2) == After(r.file, r.posted, None)
  {
    SavedSnapshotReadsBack(tickets);
    if !HasUrl(url) {
      assert file == Some(Snapshot(tickets));
    }
  }

  // ----------------------------------------------------------- the class

  /** The state a run works on: the file dati_biglietti.txt (None when it
      does not exist) and the messages posted to the Bot API. */
  class Monitor {
    var file: Option<string>
    var posted: seq<string>

    constructor(file: Option<string>)
      ensures this.file == file && posted == []
    {
      this.file := file;
      posted := [];
    }

    /** leggi_dati_precedenti. */
    method Read() returns (previous: Option<string>)
      ensures previous == Previous(file)
    {
      match file
      case None => previous := None;
      case Some(raw) => previous := Some(ReadText(raw));
    }

    /** salva_dati_attuali: the file holds exactly the data. */
    method Save(data: string)
      modifies this
      ensures file == Some(data) && posted == old(posted)
    {
      file := Some(data);
    }

    /** invia_messaggio_telegram: nothing is posted without credentials; an
      exception while the payload is built escapes before the post; a
      RequestException of the post is caught. */
    method Send(message: string, creds: Credentials, outcome: Outcome) returns (raised: Option<string>)
      modifies this
      ensures posted == Post(old(posted), creds, message, outcome) && file == old(file)
      ensures raised == Escaped(creds, outcome)
    {
      if !Configured(creds) {
        return None;
      }
      match outcome
      case Raises(e) =>
        raised := Some(e);
      case _ =>
        posted := posted + [message];
        raised := None;
    }

    /** controlla_biglietti, step by step as the script does it. */
    method Check(url: Option<string>, page: Page, creds: Credentials, notice: Outcome, alarm: Outcome)
      returns (escaped: Option<string>)
      modifies this
      ensures After(file, posted, escaped) == Run(old(file), old(posted), url, page, creds, notice, alarm)
    {
      if url.None? || url.value == "" {
        return None;
      }
      var raised: Option<string> := None;
      match page {
        case Failed(e) =>
          raised := Some(e);
        case Loaded(tickets) =>
          var current := BuildSnapshot(tickets);
          var previous := Read();
          var message := Notice(previous, current);
          if message.Some? {
            raised := Send(message.value, creds, notice);
          }
          if raised.None? {
            Save(current);
          }
      }
      if raised.Some? {
        escaped := Send(ErrorMessage(raised.value), creds, alarm);
      } else {
        escaped := None;
      }
    }
  }
}
