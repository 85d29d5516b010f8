/** One run of the daily expiry-reminder job: select the vehicles whose
    insurance or PUC expiry falls at or before three days from now, skip those
    without an owner email or already reminded since local midnight, compose a
    message, hand it to the mail transport and record one EmailLog entry per
    attempt.

    The document store, the mail transport and the clock are parameters: the
    Vehicle collection is a sequence in query order, the EmailLog collection a
    sequence the run appends to, and `trials(i)` says what the store and the
    transport do while the i-th selected vehicle is processed. */
module Reminder {
  import opened Models

  const DayMs: int := 86_400_000

  /** End of the lookahead window: the same clock time three days ahead. */
  function Upcoming(now: int): int
  {
    now + 3 * DayMs
  }

  /** The query filter: insurance OR PUC expiry present and at or before
      `upcoming`. There is no lower bound. */
  predicate ExpiresBy(v: Vehicle, upcoming: int)
  {
    || (v.insuranceExpiry.Some? && v.insuranceExpiry.value <= upcoming)
    || (v.pucExpiry.Some? && v.pucExpiry.value <= upcoming)
  }

  /** The query result, in store order. */
  function Select(vs: seq<Vehicle>, upcoming: int): (r: seq<Vehicle>)
    ensures |r| <= |vs|
    ensures forall v :: v in r <==> v in vs && ExpiresBy(v, upcoming)
  {
    if |vs| == 0 then []
    else (if ExpiresBy(vs[0], upcoming) then [vs[0]] else []) + Select(vs[1..], upcoming)
  }

  /** The query keeps every copy: a qualifying record appears in the result as
      often as in the store, any other record not at all. */
  lemma {:induction false} SelectKeepsCopies(vs: seq<Vehicle>, upcoming: int)
    ensures forall v :: multiset(Select(vs, upcoming))[v] == if ExpiresBy(v, upcoming) then multiset(vs)[v] else 0
  {
    if |vs| > 0 {
      SelectKeepsCopies(vs[1..], upcoming);
      assert vs == [vs[0]] + vs[1..];
    }
  }

  /** A vehicle selected once stays selected on every later run, however long
      ago its documents expired. */
  lemma ExpiredStaysSelected(vs: seq<Vehicle>, v: Vehicle, now: int, later: int)
    requires v in vs && ExpiresBy(v, Upcoming(now)) && now <= later
    ensures v in Select(vs, Upcoming(later))
  {
  }

  /** `!v.ownerEmail` is false for a present, non-empty address only. */
  predicate HasEmail(v: Vehicle)
  {
    v.ownerEmail.Some? && v.ownerEmail.value != ""
  }

  /** A `sent` entry created at or after `startOfDay`. */
  predicate SentSince(e: EmailLog, startOfDay: int)
  {
    e.status == Sent && e.createdAt >= startOfDay
  }

  /** The dedupe query: some `sent` entry for `number` since `startOfDay`. */
  predicate AlreadySent(log: seq<EmailLog>, number: string, startOfDay: int)
  {
    exists i :: 0 <= i < |log| && log[i].vehicleNumber == number && SentSince(log[i], startOfDay)
  }

  /** The invariant the dedupe check exists for: no vehicle number has two
      `sent` entries dated at or after `startOfDay`. */
  ghost predicate AtMostOneSentPerNumber(log: seq<EmailLog>, startOfDay: int)
  {
    forall i, j :: 0 <= i < j < |log| && SentSince(log[i], startOfDay) && SentSince(log[j], startOfDay) ==>
      log[i].vehicleNumber != log[j].vehicleNumber
  }

  // ---------------------------------------------------------------- message

  const SubjectPrefix: string := "Vehicle Expiry Reminder: "
  const DefaultName: string := "User"
  const InsurancePrefix: string := "- Insurance expires on "
  const PucPrefix: string := "- PUC expires on "
  const Hello: string := "Hello "
  const GreetingEnd: string := ",\n\n"
  const IntroPrefix: string := "Your vehicle "
  const IntroSuffix: string := " has expiring documents:\n"
  const Newline: string := "\n"
  const Closing: string := "\n" + "Please renew soon to avoid penalties.\n\nVehicle Info Finder \U{1F697}"

  function Subject(number: string): string
  {
    SubjectPrefix + number
  }

  /** `v.owner || "User"`: an absent or empty owner name reads as "User". */
  function DisplayName(owner: Option<string>): (r: string)
    ensures r != ""
    ensures r == DefaultName || owner == Some(r)
    ensures owner.Some? && owner.value != "" ==> r == owner.value
  {
    if owner.Some? && owner.value != "" then owner.value else DefaultName
  }

  function Greeting(v: Vehicle): string
  {
    Hello + DisplayName(v.owner) + GreetingEnd
  }

  function Intro(v: Vehicle): string
  {
    IntroPrefix + v.number + IntroSuffix
  }

  function InsuranceLine(v: Vehicle, dateString: int -> string): string
  {
    if v.insuranceExpiry.Some? then InsurancePrefix + dateString(v.insuranceExpiry.value) + Newline else ""
  }

  function PucLine(v: Vehicle, dateString: int -> string): string
  {
    if v.pucExpiry.Some? then PucPrefix + dateString(v.pucExpiry.value) + Newline else ""
  }

  /** The reminder text; `dateString` stands for `Date.prototype.toDateString`. */
  function Body(v: Vehicle, dateString: int -> string): string
  {
    Greeting(v) + Intro(v) + InsuranceLine(v, dateString) + PucLine(v, dateString) + Closing
  }

  predicate StartsAt(s: string, k: nat, p: string)
  {
    k + |p| <= |s| && s[k..k + |p|] == p
  }

  lemma StartsAtOwn(p: string, x: string)
    ensures StartsAt(p + x, 0, p)
  {
    assert (p + x)[..|p|] == p;
  }

  lemma StartsAtExtend(s: string, t: string, k: nat, p: string)
    requires StartsAt(s, k, p)
    ensures StartsAt(s + t, k, p)
  {
    assert (s + t)[k..k + |p|] == s[k..k + |p|];
  }

  lemma StartsAtShift(s: string, t: string, p: string)
    requires StartsAt(t, 0, p)
    ensures StartsAt(s + t, |s|, p)
  {
    assert (s + t)[|s|..|s| + |p|] == t[..|p|];
  }

  lemma StartsAtWhole(p: string)
    ensures StartsAt(p, 0, p)
  {
    assert p[0..|p|] == p;
  }

  /** `p` sits right after `a` in `a + p + x + y + z`. */
  lemma FollowedBy(a: string, p: string, x: string, y: string, z: string)
    ensures StartsAt(a + p + x + y + z, |a|, p)
  {
    StartsAtWhole(p);
    StartsAtShift(a, p, p);
    StartsAtExtend(a + p, x, |a|, p);
    StartsAtExtend(a + p + x, y, |a|, p);
    StartsAtExtend(a + p + x + y, z, |a|, p);
  }

  lemma DiffersAt(s: string, k: nat, p: string, i: nat)
    requires i < |p| && k + i < |s| && s[k + i] != p[i]
    ensures !StartsAt(s, k, p)
  {
  }

  lemma CharAt(s: string, k: nat, p: string, i: nat)
    requires StartsAt(s, k, p) && i < |p|
    ensures s[k + i] == p[i]
  {
    assert s[k..k + |p|][i] == p[i];
  }

  /** A line `prefix + date + Newline` starts with its prefix. */
  lemma LineStartsWith(prefix: string, date: string)
    ensures StartsAt(prefix + date + Newline, 0, prefix)
  {
    StartsAtOwn(prefix, date);
    StartsAtExtend(prefix + date, Newline, 0, prefix);
  }

  /** The message opens with the greeting, then the introduction naming the
      vehicle, and ends with the closing lines. */
  lemma BodyFrame(v: Vehicle, dateString: int -> string)
    ensures StartsAt(Body(v, dateString), 0, Greeting(v))
    ensures StartsAt(Body(v, dateString), |Greeting(v)|, IntroPrefix + v.number + IntroSuffix)
    ensures StartsAt(Body(v, dateString), |Body(v, dateString)| - |Closing|, Closing)
  {
    var g, i, ins, puc := Greeting(v), Intro(v), InsuranceLine(v, dateString), PucLine(v, dateString);
    StartsAtOwn(g, i);
    StartsAtExtend(g + i, ins, 0, g);
    StartsAtExtend(g + i + ins, puc, 0, g);
    StartsAtExtend(g + i + ins + puc, Closing, 0, g);
    FollowedBy(g, i, ins, puc, Closing);
    StartsAtOwn(Closing, "");
    assert Closing + "" == Closing;
    StartsAtShift(g + i + ins + puc, Closing, Closing);
  }

  /** The body carries an insurance line, right after the introduction, iff
      the vehicle has an insurance expiry; the line gives that expiry's date. */
  lemma InsuranceLineIff(v: Vehicle, dateString: int -> string)
    ensures StartsAt(Body(v, dateString), |Greeting(v) + Intro(v)|, InsurancePrefix)
        <==> v.insuranceExpiry.Some?
    ensures v.insuranceExpiry.Some? ==>
      StartsAt(Body(v, dateString), |Greeting(v) + Intro(v)|,
               InsurancePrefix + dateString(v.insuranceExpiry.value) + Newline)
  {
    var gi, ins, puc := Greeting(v) + Intro(v), InsuranceLine(v, dateString), PucLine(v, dateString);
    var b := Body(v, dateString);
    var k := |gi|;
    if v.insuranceExpiry.Some? {
      LineStartsWith(InsurancePrefix, dateString(v.insuranceExpiry.value));
      StartsAtShift(gi, ins, InsurancePrefix);
      StartsAtExtend(gi + ins, puc, k, InsurancePrefix);
      StartsAtExtend(gi + ins + puc, Closing, k, InsurancePrefix);
      StartsAtWhole(ins);
      StartsAtShift(gi, ins, ins);
      StartsAtExtend(gi + ins, puc, k, ins);
      StartsAtExtend(gi + ins + puc, Closing, k, ins);
    } else {
      assert gi + ins == gi;
      if v.pucExpiry.Some? {
        LineStartsWith(PucPrefix, dateString(v.pucExpiry.value));
        StartsAtShift(gi, puc, PucPrefix);
        StartsAtExtend(gi + puc, Closing, k, PucPrefix);
        CharAt(b, k, PucPrefix, 2);
        assert PucPrefix[2] == 'P' && InsurancePrefix[2] == 'I';
        DiffersAt(b, k, InsurancePrefix, 2);
      } else {
        assert b == gi + Closing;
        StartsAtOwn(Closing, "");
        assert Closing + "" == Closing;
        StartsAtShift(gi, Closing, Closing);
        CharAt(b, k, Closing, 0);
        assert Closing[0] == '\n' && InsurancePrefix[0] == '-';
        DiffersAt(b, k, InsurancePrefix, 0);
      }
    }
  }

  /** The body carries a PUC line, right after the optional insurance line,
      iff the vehicle has a PUC expiry; the line gives that expiry's date. */
  lemma PucLineIff(v: Vehicle, dateString: int -> string)
    ensures StartsAt(Body(v, dateString), |Greeting(v) + Intro(v) + InsuranceLine(v, dateString)|, PucPrefix)
        <==> v.pucExpiry.Some?
    ensures v.pucExpiry.Some? ==>
      StartsAt(Body(v, dateString), |Greeting(v) + Intro(v) + InsuranceLine(v, dateString)|,
               PucPrefix + dateString(v.pucExpiry.value) + Newline)
  {
    var head, puc := Greeting(v) + Intro(v) + InsuranceLine(v, dateString), PucLine(v, dateString);
    var b := Body(v, dateString);
    var k := |head|;
    if v.pucExpiry.Some? {
      LineStartsWith(PucPrefix, dateString(v.pucExpiry.value));
      StartsAtShift(head, puc, PucPrefix);
      StartsAtExtend(head + puc, Closing, k, PucPrefix);
      StartsAtWhole(puc);
      StartsAtShift(head, puc, puc);
      StartsAtExtend(head + puc, Closing, k, puc);
    } else {
      StartsAtOwn(Closing, "");
      assert Closing + "" == Closing;
      StartsAtShift(head + puc, Closing, Closing);
      CharAt(b, k, Closing, 0);
      assert Closing[0] == '\n' && PucPrefix[0] == '-';
      DiffersAt(b, k, PucPrefix, 0);
    }
  }

  /** Builds the subject and the body by successive appends. */
  method ComposeMessage(v: Vehicle, dateString: int -> string) returns (subject: string, msg: string)
    ensures subject == Subject(v.number)
    ensures msg == Body(v, dateString)
  {
    subject := SubjectPrefix + v.number;
    var name := if v.owner.Some? && v.owner.value != "" then v.owner.value else DefaultName;
    msg := Hello + name + GreetingEnd;
    msg := msg + (IntroPrefix + v.number + IntroSuffix);
    assert msg == Greeting(v) + Intro(v);
    if v.insuranceExpiry.Some? {
      msg := msg + (InsurancePrefix + dateString(v.insuranceExpiry.value) + Newline);
    }
    assert msg == Greeting(v) + Intro(v) + InsuranceLine(v, dateString);
    if v.pucExpiry.Some? {
      msg := msg + (PucPrefix + dateString(v.pucExpiry.value) + Newline);
    }
    assert msg == Greeting(v) + Intro(v) + InsuranceLine(v, dateString) + PucLine(v, dateString);
    msg := msg + Closing;
  }

  // ---------------------------------------------------------------- one run

  /** The outcome of one store call. */
  datatype Call = Completes | Throws(message: string)

  /** The outcome of one `sendMail` call. */
  datatype Delivery = Delivered(receipt: string) | Rejected(reason: string)

  /** What the environment does while one selected vehicle is processed: the
      dedupe query, the send, the `sent` log write, the `failed` log write,
      and the creation timestamp the store gives a new entry. */
  datatype Trial = Trial(lookup: Call, send: Delivery, sentLog: Call, failedLog: Call, at: int)

  /** The log so far, and whether an exception has escaped to the job's
      outer handler (which ends the run). */
  datatype RunState = Running(log: seq<EmailLog>) | Aborted(log: seq<EmailLog>)

  /** The reminder text as a function of the vehicle; the run below is stated
      for any such function, and the job runs it with this one. */
  function BodyOf(dateString: int -> string): Vehicle -> string
  {
    v => Body(v, dateString)
  }

  /** The fields an entry takes from the vehicle it was written for;
      `bodyOf` gives each vehicle's reminder text. */
  predicate Describes(e: EmailLog, v: Vehicle, bodyOf: Vehicle -> string)
  {
    && HasEmail(v)
    && e.to == v.ownerEmail.value
    && e.vehicleNumber == v.number
    && e.subject == Subject(v.number)
    && e.body == bodyOf(v)
  }

  function Entry(v: Vehicle, status: Status, info: Info, at: int, bodyOf: Vehicle -> string): EmailLog
    requires HasEmail(v)
  {
    EmailLog(v.ownerEmail.value, Subject(v.number), bodyOf(v), v.number, status, info, at)
  }

  /** Processing one selected vehicle, starting from `log`: the log is kept,
      or grows by exactly one entry with every earlier entry unchanged. */
  function Step(v: Vehicle, log: seq<EmailLog>, startOfDay: int, t: Trial, bodyOf: Vehicle -> string): (r: RunState)
    ensures r.log == log || (|r.log| == |log| + 1 && r.log[..|log|] == log)
  {
    if !HasEmail(v) then Running(log)
    else if t.lookup.Throws? then Aborted(log)
    else if AlreadySent(log, v.number, startOfDay) then Running(log)
    else if t.send.Delivered? && t.sentLog.Completes? then
      Running(log + [Entry(v, Sent, Receipt(t.send.receipt), t.at, bodyOf)])
    else
      var message := if t.send.Rejected? then t.send.reason else t.sentLog.message;
      if t.failedLog.Throws? then Aborted(log)
      else Running(log + [Entry(v, Failed, ErrorMessage(message), t.at, bodyOf)])
  }

  /** What processing one vehicle does to the log and to the run. */
  lemma StepOutcome(v: Vehicle, log: seq<EmailLog>, startOfDay: int, t: Trial, bodyOf: Vehicle -> string)
    ensures var r := Step(v, log, startOfDay, t, bodyOf);
      // the only entry ever added describes v, and only when v has an email
      // and no reminder was sent for its number today
      && (r.log != log ==>
            && r.Running? && Describes(r.log[|log|], v, bodyOf) && r.log[|log|].createdAt == t.at
            && !AlreadySent(log, v.number, startOfDay))
      && (!HasEmail(v) ==> r == Running(log))
      && (HasEmail(v) && t.lookup.Completes? && AlreadySent(log, v.number, startOfDay) ==> r == Running(log))
      // an attempt always leaves exactly one entry unless the run aborts
      && (HasEmail(v) && t.lookup.Completes? && !AlreadySent(log, v.number, startOfDay) ==>
            (r.Running? <==> r.log != log))
      && (r.Running? && r.log != log ==>
            (r.log[|log|].status == Sent <==> t.send.Delivered? && t.sentLog.Completes?))
      // the transport's receipt goes with a `sent` entry, its error with a `failed` one
      && (r.Running? && r.log != log && r.log[|log|].status == Sent ==>
            r.log[|log|].info == Receipt(t.send.receipt))
      && (r.Running? && r.log != log && t.send.Rejected? ==>
            r.log[|log|].info == ErrorMessage(t.send.reason))
      // a delivered send whose `sent` write throws is logged as failed with
      // the write's error
      && (r.Running? && r.log != log && t.send.Delivered? && t.sentLog.Throws? ==>
            r.log[|log|].info == ErrorMessage(t.sentLog.message))
      // the run is cut short only by a store call that throws outside the
      // per-vehicle handler
      && (r.Aborted? <==>
            && HasEmail(v)
            && (|| t.lookup.Throws?
                || (&& !AlreadySent(log, v.number, startOfDay)
                    && !(t.send.Delivered? && t.sentLog.Completes?)
                    && t.failedLog.Throws?)))
  {
  }

  /** The state after the first `k` selected vehicles. */
  function RunPrefix(sel: seq<Vehicle>, k: nat, log0: seq<EmailLog>, startOfDay: int,
                     trials: nat -> Trial, bodyOf: Vehicle -> string): RunState
    requires k <= |sel|
  {
    if k == 0 then Running(log0)
    else match RunPrefix(sel, k - 1, log0, startOfDay, trials, bodyOf)
      case Aborted(l) => Aborted(l)
      case Running(l) => Step(sel[k - 1], l, startOfDay, trials(k - 1), bodyOf)
  }

  /** A whole run: a failing vehicle query aborts before anything is appended. */
  function Run(store: seq<Vehicle>, log0: seq<EmailLog>, now: int, startOfDay: int, queryOk: bool,
               trials: nat -> Trial, bodyOf: Vehicle -> string): RunState
  {
    if !queryOk then Aborted(log0)
    else
      var sel := Select(store, Upcoming(now));
      RunPrefix(sel, |sel|, log0, startOfDay, trials, bodyOf)
  }

  /** One iteration of the job's loop: the email check, the dedupe query,
      composing and sending, and the log write in the success or the failure
      branch. An exception outside the per-vehicle handler ends the run. */
  method ProcessVehicle(v: Vehicle, log: seq<EmailLog>, startOfDay: int, t: Trial, dateString: int -> string)
    returns (state: RunState)
    ensures state == Step(v, log, startOfDay, t, BodyOf(dateString))
  {
    if !HasEmail(v) {
      return Running(log);
    }
    if t.lookup.Throws? {
      return Aborted(log);
    }
    if AlreadySent(log, v.number, startOfDay) {
      return Running(log);
    }
    var subject, msg := ComposeMessage(v, dateString);
    var error: string;
    match t.send {
      case Delivered(receipt) =>
        if t.sentLog.Completes? {
          return Running(log + [EmailLog(v.ownerEmail.value, subject, msg, v.number, Sent, Receipt(receipt), t.at)]);
        }
        error := t.sentLog.message;
      case Rejected(reason) =>
        error := reason;
    }
    if t.failedLog.Throws? {
      return Aborted(log);
    }
    return Running(log + [EmailLog(v.ownerEmail.value, subject, msg, v.number, Failed, ErrorMessage(error), t.at)]);
  }

  /** The `for` loop over the query result; an exception that escapes a
      vehicle's processing ends the loop. */
  method ProcessSelected(vehicles: seq<Vehicle>, log0: seq<EmailLog>, startOfDay: int,
                         trials: nat -> Trial, dateString: int -> string)
    returns (log: seq<EmailLog>, completed: bool)
    ensures (if completed then Running(log) else Aborted(log))
         == RunPrefix(vehicles, |vehicles|, log0, startOfDay, trials, BodyOf(dateString))
  {
    log, completed := log0, true;
    var i := 0;
    while i < |vehicles| && completed
      invariant i <= |vehicles|
      invariant RunPrefix(vehicles, i, log0, startOfDay, trials, BodyOf(dateString))
             == if completed then Running(log) else Aborted(log)
    {
      var state := ProcessVehicle(vehicles[i], log, startOfDay, trials(i), dateString);
      assert RunPrefix(vehicles, i + 1, log0, startOfDay, trials, BodyOf(dateString)) == state;
      log, completed := state.log, state.Running?;
      i := i + 1;
    }
    if !completed {
      AbortIsFinal(vehicles, i, |vehicles|, log0, startOfDay, trials, BodyOf(dateString));
    }
  }

  /** The cron callback body. */
  method RunReminders(store: seq<Vehicle>, log0: seq<EmailLog>, now: int, startOfDay: int, queryOk: bool,
                      trials: nat -> Trial, dateString: int -> string)
    returns (log: seq<EmailLog>, completed: bool)
    ensures (if completed then Running(log) else Aborted(log))
         == Run(store, log0, now, startOfDay, queryOk, trials, BodyOf(dateString))
    ensures |log0| <= |log| && log[..|log0|] == log0
    ensures AtMostOneSentPerNumber(log0, startOfDay) ==> AtMostOneSentPerNumber(log, startOfDay)
  {
    RunAppendOnly(store, log0, now, startOfDay, queryOk, trials, BodyOf(dateString));
    if AtMostOneSentPerNumber(log0, startOfDay) {
      RunKeepsAtMostOneSentPerNumber(store, log0, now, startOfDay, queryOk, trials, BodyOf(dateString));
    }
    if !queryOk {
      return log0, false;
    }
    var vehicles := Select(store, Upcoming(now));
    if |vehicles| == 0 {
      return log0, true;
    }
    log, completed := ProcessSelected(vehicles, log0, startOfDay, trials, dateString);
  }

  // ---------------------------------------------------------------- properties of a run

  lemma {:induction false} AbortIsFinal(sel: seq<Vehicle>, k: nat, k': nat, log0: seq<EmailLog>, startOfDay: int,
                                        trials: nat -> Trial, bodyOf: Vehicle -> string)
    requires k <= k' <= |sel|
    requires RunPrefix(sel, k, log0, startOfDay, trials, bodyOf).Aborted?
    ensures RunPrefix(sel, k', log0, startOfDay, trials, bodyOf)
         == RunPrefix(sel, k, log0, startOfDay, trials, bodyOf)
    decreases k' - k
  {
    if k < k' {
      AbortIsFinal(sel, k, k' - 1, log0, startOfDay, trials, bodyOf);
    }
  }

  lemma {:induction false} PrefixAppendOnly(sel: seq<Vehicle>, k: nat, log0: seq<EmailLog>, startOfDay: int,
                                            trials: nat -> Trial, bodyOf: Vehicle -> string)
    requires k <= |sel|
    ensures var r := RunPrefix(sel, k, log0, startOfDay, trials, bodyOf);
      |log0| <= |r.log| && r.log[..|log0|] == log0
  {
    if k > 0 {
      PrefixAppendOnly(sel, k - 1, log0, startOfDay, trials, bodyOf);
      var l := RunPrefix(sel, k - 1, log0, startOfDay, trials, bodyOf).log;
      var r := RunPrefix(sel, k, log0, startOfDay, trials, bodyOf).log;
      if r != l {
        assert r[..|log0|] == r[..|l|][..|log0|];
      }
    }
  }

  /** Every entry present before the run is unchanged after it. */
  lemma RunAppendOnly(store: seq<Vehicle>, log0: seq<EmailLog>, now: int, startOfDay: int, queryOk: bool,
                      trials: nat -> Trial, bodyOf: Vehicle -> string)
    ensures var r := Run(store, log0, now, startOfDay, queryOk, trials, bodyOf);
      |log0| <= |r.log| && r.log[..|log0|] == log0
  {
    if queryOk {
      var sel := Select(store, Upcoming(now));
      PrefixAppendOnly(sel, |sel|, log0, startOfDay, trials, bodyOf);
    }
  }

  /** `e` was written for one of the vehicles `vs`. */
  ghost predicate WrittenForOneOf(e: EmailLog, vs: seq<Vehicle>, bodyOf: Vehicle -> string)
  {
    exists v :: v in vs && Describes(e, v, bodyOf)
  }

  lemma {:induction false} PrefixEntriesDescribeVehicles(sel: seq<Vehicle>, k: nat, log0: seq<EmailLog>,
                                                         startOfDay: int, trials: nat -> Trial,
                                                         bodyOf: Vehicle -> string)
    requires k <= |sel|
    ensures var r := RunPrefix(sel, k, log0, startOfDay, trials, bodyOf);
      forall i :: |log0| <= i < |r.log| ==> WrittenForOneOf(r.log[i], sel, bodyOf)
  {
    if k > 0 {
      PrefixEntriesDescribeVehicles(sel, k - 1, log0, startOfDay, trials, bodyOf);
      PrefixAppendOnly(sel, k - 1, log0, startOfDay, trials, bodyOf);
      var p := RunPrefix(sel, k - 1, log0, startOfDay, trials, bodyOf);
      var r := RunPrefix(sel, k, log0, startOfDay, trials, bodyOf).log;
      if p.Running? && r != p.log {
        StepOutcome(sel[k - 1], p.log, startOfDay, trials(k - 1), bodyOf);
        assert sel[k - 1] in sel;
        assert r[..|p.log|] == p.log;
        forall i | |log0| <= i < |r|
          ensures WrittenForOneOf(r[i], sel, bodyOf)
        {
          if i < |p.log| {
            assert r[i] == p.log[i];
          }
        }
      }
    }
  }

  /** `e` was written for a vehicle of the store that the query selects. */
  ghost predicate ForSelectedVehicle(e: EmailLog, store: seq<Vehicle>, upcoming: int, bodyOf: Vehicle -> string)
  {
    exists v :: v in store && ExpiresBy(v, upcoming) && Describes(e, v, bodyOf)
  }

  /** Every entry a run appends was written for a selected vehicle that has
      an owner email, with that vehicle's address, number, subject and body. */
  lemma RunEntriesDescribeSelectedVehicles(store: seq<Vehicle>, log0: seq<EmailLog>, now: int, startOfDay: int,
                                           queryOk: bool, trials: nat -> Trial, bodyOf: Vehicle -> string)
    ensures var r := Run(store, log0, now, startOfDay, queryOk, trials, bodyOf);
      forall i :: |log0| <= i < |r.log| ==> ForSelectedVehicle(r.log[i], store, Upcoming(now), bodyOf)
  {
    var r := Run(store, log0, now, startOfDay, queryOk, trials, bodyOf);
    if queryOk {
      var sel := Select(store, Upcoming(now));
      PrefixEntriesDescribeVehicles(sel, |sel|, log0, startOfDay, trials, bodyOf);
      assert r == RunPrefix(sel, |sel|, log0, startOfDay, trials, bodyOf);
      forall i | |log0| <= i < |r.log|
        ensures ForSelectedVehicle(r.log[i], store, Upcoming(now), bodyOf)
      {
        assert WrittenForOneOf(r.log[i], sel, bodyOf);
        var v :| v in sel && Describes(r.log[i], v, bodyOf);
      }
    }
  }

  lemma StepKeepsAtMostOneSentPerNumber(v: Vehicle, log: seq<EmailLog>, startOfDay: int, t: Trial,
                                        bodyOf: Vehicle -> string)
    requires AtMostOneSentPerNumber(log, startOfDay)
    ensures AtMostOneSentPerNumber(Step(v, log, startOfDay, t, bodyOf).log, startOfDay)
  {
    var r := Step(v, log, startOfDay, t, bodyOf).log;
    StepOutcome(v, log, startOfDay, t, bodyOf);
    if r != log {
      forall i, j | 0 <= i < j < |r| && SentSince(r[i], startOfDay) && SentSince(r[j], startOfDay)
        ensures r[i].vehicleNumber != r[j].vehicleNumber
      {
        if j == |log| {
          assert r[i] == log[i];
          assert !AlreadySent(log, v.number, startOfDay);
        } else {
          assert r[i] == log[i] && r[j] == log[j];
        }
      }
    }
  }

  lemma {:induction false} PrefixKeepsAtMostOneSentPerNumber(sel: seq<Vehicle>, k: nat, log0: seq<EmailLog>,
                                                             startOfDay: int, trials: nat -> Trial,
                                                             bodyOf: Vehicle -> string)
    requires k <= |sel|
    requires AtMostOneSentPerNumber(log0, startOfDay)
    ensures AtMostOneSentPerNumber(RunPrefix(sel, k, log0, startOfDay, trials, bodyOf).log, startOfDay)
  {
    if k > 0 {
      PrefixKeepsAtMostOneSentPerNumber(sel, k - 1, log0, startOfDay, trials, bodyOf);
      var p := RunPrefix(sel, k - 1, log0, startOfDay, trials, bodyOf);
      if p.Running? {
        StepKeepsAtMostOneSentPerNumber(sel[k - 1], p.log, startOfDay, trials(k - 1), bodyOf);
      }
    }
  }

  /** At most one `sent` reminder per vehicle number per day, also when
      several vehicle records share a number. */
  lemma RunKeepsAtMostOneSentPerNumber(store: seq<Vehicle>, log0: seq<EmailLog>, now: int, startOfDay: int,
                                       queryOk: bool, trials: nat -> Trial, bodyOf: Vehicle -> string)
    requires AtMostOneSentPerNumber(log0, startOfDay)
    ensures AtMostOneSentPerNumber(Run(store, log0, now, startOfDay, queryOk, trials, bodyOf).log, startOfDay)
  {
    if queryOk {
      var sel := Select(store, Upcoming(now));
      PrefixKeepsAtMostOneSentPerNumber(sel, |sel|, log0, startOfDay, trials, bodyOf);
    }
  }

  lemma {:induction false} PrefixCompletes(sel: seq<Vehicle>, k: nat, log0: seq<EmailLog>, startOfDay: int,
                                           trials: nat -> Trial, bodyOf: Vehicle -> string)
    requires k <= |sel|
    requires forall i: nat :: i < k ==> trials(i).lookup.Completes? && trials(i).failedLog.Completes?
    ensures RunPrefix(sel, k, log0, startOfDay, trials, bodyOf).Running?
  {
    if k > 0 {
      PrefixCompletes(sel, k - 1, log0, startOfDay, trials, bodyOf);
      var p := RunPrefix(sel, k - 1, log0, startOfDay, trials, bodyOf);
      StepOutcome(sel[k - 1], p.log, startOfDay, trials(k - 1), bodyOf);
    }
  }

  /** A failed send never stops the run: unless a store call outside the
      per-vehicle handler throws, every selected vehicle is processed. */
  lemma RunCompletesDespiteSendFailures(store: seq<Vehicle>, log0: seq<EmailLog>, now: int, startOfDay: int,
                                        trials: nat -> Trial, bodyOf: Vehicle -> string)
    requires forall i: nat :: i < |Select(store, Upcoming(now))| ==>
      trials(i).lookup.Completes? && trials(i).failedLog.Completes?
    ensures Run(store, log0, now, startOfDay, true, trials, bodyOf).Running?
  {
    var sel := Select(store, Upcoming(now));
    PrefixCompletes(sel, |sel|, log0, startOfDay, trials, bodyOf);
  }

  lemma {:induction false} PrefixNoopWhenAllSent(sel: seq<Vehicle>, k: nat, log0: seq<EmailLog>, startOfDay: int,
                                                 trials: nat -> Trial, bodyOf: Vehicle -> string)
    requires k <= |sel|
    requires forall j :: 0 <= j < k && HasEmail(sel[j]) ==> AlreadySent(log0, sel[j].number, startOfDay)
    ensures RunPrefix(sel, k, log0, startOfDay, trials, bodyOf).log == log0
  {
    if k > 0 {
      PrefixNoopWhenAllSent(sel, k - 1, log0, startOfDay, trials, bodyOf);
      StepOutcome(sel[k - 1], log0, startOfDay, trials(k - 1), bodyOf);
    }
  }

  /** A run on a day when every selected vehicle with an email was already
      reminded appends nothing; so does a run whose query selects nothing. */
  lemma RunNoopWhenAllSentToday(store: seq<Vehicle>, log0: seq<EmailLog>, now: int, startOfDay: int,
                                queryOk: bool, trials: nat -> Trial, bodyOf: Vehicle -> string)
    requires forall v :: v in store && ExpiresBy(v, Upcoming(now)) && HasEmail(v) ==>
      AlreadySent(log0, v.number, startOfDay)
    ensures Run(store, log0, now, startOfDay, queryOk, trials, bodyOf).log == log0
  {
    if queryOk {
      var sel := Select(store, Upcoming(now));
      forall j | 0 <= j < |sel| && HasEmail(sel[j])
        ensures AlreadySent(log0, sel[j].number, startOfDay)
      {
        assert sel[j] in sel;
      }
      PrefixNoopWhenAllSent(sel, |sel|, log0, startOfDay, trials, bodyOf);
    }
  }

  // ---------------------------------------------------------------- several runs

  /** One firing of the schedule, over the store as it is at that moment
      (socket upserts and the HTTP routes may change it between runs). */
  datatype Tick = Tick(store: seq<Vehicle>, now: int, queryOk: bool, trials: nat -> Trial)

  /** The log after several runs, all on the day that starts at `startOfDay`. */
  function Day(log0: seq<EmailLog>, startOfDay: int, ticks: seq<Tick>, bodyOf: Vehicle -> string): seq<EmailLog>
    decreases |ticks|
  {
    if |ticks| == 0 then log0
    else
      var t := ticks[0];
      Day(Run(t.store, log0, t.now, startOfDay, t.queryOk, t.trials, bodyOf).log, startOfDay, ticks[1..], bodyOf)
  }

  /** However often the job fires in one day, and however the store changes
      between runs, each vehicle number ends up with at most one `sent` entry
      dated that day, and no earlier entry changes. */
  lemma {:induction false} DayKeepsAtMostOneSentPerNumber(log0: seq<EmailLog>, startOfDay: int, ticks: seq<Tick>,
                                                          bodyOf: Vehicle -> string)
    requires AtMostOneSentPerNumber(log0, startOfDay)
    ensures var l := Day(log0, startOfDay, ticks, bodyOf);
      && AtMostOneSentPerNumber(l, startOfDay)
      && |log0| <= |l| && l[..|log0|] == log0
    decreases |ticks|
  {
    if |ticks| > 0 {
      var t := ticks[0];
      var l1 := Run(t.store, log0, t.now, startOfDay, t.queryOk, t.trials, bodyOf).log;
      RunKeepsAtMostOneSentPerNumber(t.store, log0, t.now, startOfDay, t.queryOk, t.trials, bodyOf);
      RunAppendOnly(t.store, log0, t.now, startOfDay, t.queryOk, t.trials, bodyOf);
      DayKeepsAtMostOneSentPerNumber(l1, startOfDay, ticks[1..], bodyOf);
      var l := Day(log0, startOfDay, ticks, bodyOf);
      assert l[..|log0|] == l[..|l1|][..|log0|];
    }
  }

  /** A vehicle whose insurance expires in two days and whose owner has an
      address gets one `sent` reminder to that address on the first run of
      the day; a second run the same day adds nothing. */
  lemma ExampleTwoRunsOneDay(now: int, startOfDay: int, later: int, bodyOf: Vehicle -> string)
    requires startOfDay <= now <= later
    ensures
      var v := Vehicle("MH12AB1234", None, None, None, None, Some("a@x.com"), Some(now + 2 * DayMs), None, None);
      var first := (i: nat) => Trial(Completes, Delivered("receipt"), Completes, Completes, now);
      var second := (i: nat) => Trial(Completes, Delivered("receipt"), Completes, Completes, later);
      var l1 := Run([v], [], now, startOfDay, true, first, bodyOf);
      && l1.Running? && |l1.log| == 1 && l1.log[0].status == Sent && l1.log[0].to == "a@x.com"
      && Run([v], l1.log, later, startOfDay, true, second, bodyOf) == Running(l1.log)
  {
    var v := Vehicle("MH12AB1234", None, None, None, None, Some("a@x.com"), Some(now + 2 * DayMs), None, None);
    var first := (i: nat) => Trial(Completes, Delivered("receipt"), Completes, Completes, now);
    var second := (i: nat) => Trial(Completes, Delivered("receipt"), Completes, Completes, later);
    assert Select([v], Upcoming(now)) == [v] by {
      assert [v][1..] == [];
    }
    assert Select([v], Upcoming(later)) == [v] by {
      assert [v][1..] == [];
    }
    var l1 := Run([v], [], now, startOfDay, true, first, bodyOf);
    assert l1 == RunPrefix([v], 1, [], startOfDay, first, bodyOf);
    assert RunPrefix([v], 0, [], startOfDay, first, bodyOf) == Running([]);
    assert l1 == Step(v, [], startOfDay, first(0), bodyOf);
    assert l1.log[0].vehicleNumber == v.number && SentSince(l1.log[0], startOfDay);
    assert AlreadySent(l1.log, v.number, startOfDay);
    assert Run([v], l1.log, later, startOfDay, true, second, bodyOf)
        == RunPrefix([v], 1, l1.log, startOfDay, second, bodyOf);
    assert RunPrefix([v], 0, l1.log, startOfDay, second, bodyOf) == Running(l1.log);
  }
}
