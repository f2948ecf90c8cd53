/** The session control panel: the generated session name, the button
    predicates derived from the session state, and the begin / end actions
    that delegate to the session manager. */
module SessionControls {
  import opened Common
  import Db
  import CppApi
  import SessionManager

  /** The local calendar fields of `new Date()`: `getFullYear`, `getMonth`
      (0-based), `getDate`, `getHours`, `getMinutes`. */
  datatype LocalTime = LocalTime(year: int, month: int, date: int, hours: int, minutes: int)

  /** The ranges a `Date` reports its fields in. */
  predicate IsCalendarTime(t: LocalTime) {
    0 <= t.month <= 11 && 1 <= t.date <= 31 && 0 <= t.hours <= 23 && 0 <= t.minutes <= 59
  }

  predicate IsDigit(c: char) {
    '0' <= c <= '9'
  }

  function DigitChar(d: nat): (c: char)
    requires d < 10
    ensures IsDigit(c)
  {
    ('0' as int + d) as char
  }

  /** `n.toString()` for a non-negative integer. */
  function NatToString(n: nat): (s: string)
    ensures |s| >= 1
    ensures forall i | 0 <= i < |s| :: IsDigit(s[i])
    ensures n < 10 <==> |s| == 1
  {
    if n < 10 then [DigitChar(n)] else NatToString(n / 10) + [DigitChar(n % 10)]
  }

  /** `n.toString()`. */
  function IntToString(n: int): string {
    if n < 0 then "-" + NatToString(-n) else NatToString(n)
  }

  /** `s.padStart(2, '0')`. */
  function PadStart2(s: string): (r: string)
    ensures |r| == if |s| >= 2 then |s| else 2
    ensures |s| >= 2 ==> r == s
  {
    if |s| >= 2 then s else seq(2 - |s|, _ => '0') + s
  }

  /** The part of a session name after the year. */
  function TailOf(t: LocalTime): string {
    "-" + PadStart2(IntToString(t.month + 1))
    + "-" + PadStart2(IntToString(t.date))
    + "_" + PadStart2(IntToString(t.hours))
    + "-" + PadStart2(IntToString(t.minutes))
  }

  /** `createSessionName`: `session_YYYY-MM-DD_HH-mm`, month counted from 1,
      the year unpadded and the other fields padded to two characters. */
  function CreateSessionName(t: LocalTime): (name: string)
    ensures |name| >= 21 && name[..8] == "session_"
  {
    "session_" + IntToString(t.year) + TailOf(t)
  }

  /** A run of decimal digits read as a number. */
  function ParseNat(s: string): Option<nat> {
    if s == [] || !IsDigit(s[|s| - 1]) then None
    else
      var d := s[|s| - 1] as int - '0' as int;
      if |s| == 1 then Some(d)
      else match ParseNat(s[..|s| - 1])
        case None => None
        case Some(v) => Some(10 * v + d)
  }

  /** An optionally signed run of decimal digits read as a number. */
  function ParseInt(s: string): Option<int> {
    if s != [] && s[0] == '-' then
      match ParseNat(s[1..])
      case None => None
      case Some(v) => Some(-(v as int))
    else
      match ParseNat(s)
      case None => None
      case Some(v) => Some(v)
  }

  /** The fixed-width `-MM-DD_HH-mm` tail of a session name read back. */
  function ParseTail(tail: string): Option<(nat, nat, nat, nat)>
    requires |tail| == 12
  {
    if tail[0] != '-' || tail[3] != '-' || tail[6] != '_' || tail[9] != '-' then None
    else
      match (ParseNat(tail[1..3]), ParseNat(tail[4..6]), ParseNat(tail[7..9]), ParseNat(tail[10..12]))
      case (Some(month), Some(date), Some(hours), Some(minutes)) => Some((month, date, hours, minutes))
      case _ => None
  }

  /** A session name read back into its calendar fields: the year lies between
      the prefix and the fixed-width tail. */
  function ParseSessionName(name: string): Option<LocalTime> {
    if |name| < 21 || name[..8] != "session_" then None
    else
      match (ParseInt(name[8..|name| - 12]), ParseTail(name[|name| - 12..]))
      case (Some(year), Some((month, date, hours, minutes))) =>
        Some(LocalTime(year, month as int - 1, date, hours, minutes))
      case _ => None
  }

  /** Decimal printing is undone by decimal reading. */
  lemma {:induction false} NatRoundTrip(n: nat)
    ensures ParseNat(NatToString(n)) == Some(n)
  {
    if n >= 10 {
      var s := NatToString(n);
      NatRoundTrip(n / 10);
      assert s[..|s| - 1] == NatToString(n / 10);
    }
  }

  lemma IntRoundTrip(n: int)
    ensures ParseInt(IntToString(n)) == Some(n)
  {
    if n < 0 {
      var digits := NatToString(-n);
      NatRoundTrip(-n);
      var s := "-" + digits;
      assert s[1..] == digits;
      assert ParseInt(s) == Some(-((-n) as int));
    } else {
      var s := NatToString(n);
      NatRoundTrip(n);
      assert IsDigit(s[0]);
    }
  }

  /** A field in 0..99 is padded to exactly two characters that denote it. */
  lemma PaddedField(n: int)
    requires 0 <= n <= 99
    ensures |PadStart2(IntToString(n))| == 2
    ensures ParseNat(PadStart2(IntToString(n))) == Some(n)
  {
    NatRoundTrip(n);
    var s := NatToString(n);
    if n < 10 {
      assert PadStart2(s) == ['0', s[0]];
      assert PadStart2(s)[..1] == ['0'];
    }
  }

  /** The separators and the four two-character fields of a tail sit at
      fixed positions. */
  lemma TailLayout(mm: string, dd: string, hh: string, mi: string)
    requires |mm| == 2 && |dd| == 2 && |hh| == 2 && |mi| == 2
    ensures var tail := "-" + mm + "-" + dd + "_" + hh + "-" + mi;
            && |tail| == 12
            && tail[0] == '-' && tail[3] == '-' && tail[6] == '_' && tail[9] == '-'
            && tail[1..3] == mm && tail[4..6] == dd && tail[7..9] == hh && tail[10..12] == mi
  {
  }

  /** The tail reads back as the month counted from 1 and the other fields. */
  lemma TailRoundTrip(t: LocalTime)
    requires IsCalendarTime(t)
    ensures |TailOf(t)| == 12
    ensures ParseTail(TailOf(t)) == Some(((t.month + 1) as nat, t.date as nat, t.hours as nat, t.minutes as nat))
  {
    var mm, dd := PadStart2(IntToString(t.month + 1)), PadStart2(IntToString(t.date));
    var hh, mi := PadStart2(IntToString(t.hours)), PadStart2(IntToString(t.minutes));
    PaddedField(t.month + 1);
    PaddedField(t.date);
    PaddedField(t.hours);
    PaddedField(t.minutes);
    TailLayout(mm, dd, hh, mi);
  }

  /** The generated name determines the instant it was made at, to the
      minute: reading it back gives every calendar field, the month as
      `getMonth` reports it. */
  lemma SessionNameRoundTrip(t: LocalTime)
    requires IsCalendarTime(t)
    ensures ParseSessionName(CreateSessionName(t)) == Some(t)
  {
    var y := IntToString(t.year);
    var tail := TailOf(t);
    TailRoundTrip(t);
    IntRoundTrip(t.year);
    var name := CreateSessionName(t);
    assert name == "session_" + y + tail;
    assert name[..8] == "session_";
    assert name[|name| - 12..] == tail;
    assert name[8..|name| - 12] == y;
  }

  class SessionControlsComponent {
    const sessionManager: SessionManager.SessionManagerService

    constructor (sessionManager: SessionManager.SessionManagerService)
      ensures this.sessionManager == sessionManager
    {
      this.sessionManager := sessionManager;
    }

    /** Begin is never offered while a session is active. */
    function ShouldDisplayBeginButton(): (display: bool)
      reads sessionManager
      ensures display ==> !SessionManager.HasActiveSession(sessionManager.state)
    {
      !sessionManager.state.started
    }

    /** End is always enabled while a session is active. */
    function ShouldEnableEndButton(): (enable: bool)
      reads sessionManager
      ensures SessionManager.HasActiveSession(sessionManager.state) ==> enable
    {
      sessionManager.state.started
    }

    /** The buttons whose logic is not written yet ignore the session state. */
    function ShouldEnableInitialPhotoButton(): (enable: bool)
      ensures enable
    {
      true
    }

    function ShouldDisplayContinueButton(): (display: bool)
      ensures !display
    {
      false
    }

    function ShouldEnableContinueButton(): (enable: bool)
      ensures !enable
    {
      false
    }

    function ShouldEnablePauseButton(): (enable: bool)
      ensures !enable
    {
      false
    }

    function ShouldEnableResetButton(): (enable: bool)
      ensures !enable
    {
      false
    }

    /** Exactly one of begin and end is offered: begin while idle, end while a
        session is started. */
    lemma BeginOrEnd()
      ensures ShouldDisplayBeginButton() != ShouldEnableEndButton()
      ensures ShouldEnableEndButton() == sessionManager.state.started
    {
    }

    /** The buttons whose logic is not written yet have fixed states. */
    lemma FixedButtons()
      ensures ShouldEnableInitialPhotoButton()
      ensures !ShouldDisplayContinueButton() && !ShouldEnableContinueButton()
      ensures !ShouldEnablePauseButton() && !ShouldEnableResetButton()
    {
    }

    /** `begin`: starts a session named after the current minute, with the
        whole effect of the session manager's start. */
    method Begin(local: LocalTime, now: Time, created: Option<int>)
      requires sessionManager.Valid()
      modifies sessionManager`state, sessionManager`commands, sessionManager.store`calls,
               sessionManager.arduino`currentSessionId
      ensures sessionManager.Valid()
      ensures sessionManager.store.calls
              == old(sessionManager.store.calls) + [Db.CreateSession(Db.Session(CreateSessionName(local), now, None))]
      ensures created.Some? ==>
                && sessionManager.state
                   == SessionManager.ActiveSessionState(Some(created.value), Some(CreateSessionName(local)), true)
                && sessionManager.arduino.currentSessionId == Some(created.value)
                && sessionManager.commands
                   == old(sessionManager.commands) + [CppApi.Command.StartSession(CreateSessionName(local)),
                                                      CppApi.Command.StartStreams]
                && ShouldEnableEndButton() && !ShouldDisplayBeginButton()
      ensures created.None? ==>
                && sessionManager.state == old(sessionManager.state)
                && sessionManager.commands == old(sessionManager.commands)
                && sessionManager.arduino.currentSessionId == old(sessionManager.arduino.currentSessionId)
    {
      var sessionName := CreateSessionName(local);
      sessionManager.StartSession(sessionName, now, created);
    }

    /** `end`: stops the active session, if any, with the whole effect of the
        session manager's stop. */
    method End(now: Time)
      requires sessionManager.Valid()
      modifies sessionManager`state, sessionManager`commands, sessionManager.store`calls,
               sessionManager.arduino`currentSessionId
      ensures sessionManager.Valid()
      ensures SessionManager.HasActiveSession(old(sessionManager.state)) ==>
                && sessionManager.state == SessionManager.Idle
                && sessionManager.commands
                   == old(sessionManager.commands) + [CppApi.Command.StopSession, CppApi.Command.StopStreams]
                && sessionManager.store.calls
                   == old(sessionManager.store.calls) + [Db.EndSession(old(sessionManager.state).sessionId.value, now)]
                && sessionManager.arduino.currentSessionId == Some(0)
                && ShouldDisplayBeginButton()
      ensures !SessionManager.HasActiveSession(old(sessionManager.state)) ==>
                && sessionManager.state == old(sessionManager.state)
                && sessionManager.commands == old(sessionManager.commands)
                && sessionManager.store.calls == old(sessionManager.store.calls)
                && sessionManager.arduino.currentSessionId == old(sessionManager.arduino.currentSessionId)
    {
      sessionManager.StopSession(now);
    }
  }
}
