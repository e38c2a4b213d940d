/** The workout session record of apps/models/my_trainer.py: its declared defaults and the
    "H:MM" rendering of its duration. */
module MyTrainer {
  import opened Common

  datatype SessionStatus = Completed | InProgress | Abandoned

  /** A `WorkoutSession` row. Datetimes are seconds; the Decimal totals are exact reals. */
  datatype WorkoutSession = WorkoutSession(
    id: nat,
    user: nat,
    workout: nat,
    status: SessionStatus,
    durationSeconds: int,
    exercisesCompleted: int,
    totalCalories: real,
    totalReps: int,
    totalWeight: real,
    currentExerciseIndex: int,
    startedAt: int,
    completedAt: Option<int>)

  /** A session as created: in progress, every counter and total 0, stamped with the creation
      time, not completed. */
  function NewSession(id: nat, user: nat, workout: nat, now: int): (s: WorkoutSession)
    ensures s.id == id && s.user == user && s.workout == workout
    ensures s.status == InProgress
    ensures s.durationSeconds == 0 && s.exercisesCompleted == 0 && s.totalReps == 0
    ensures s.currentExerciseIndex == 0
    ensures s.totalCalories == 0.0 && s.totalWeight == 0.0
    ensures s.startedAt == now && s.completedAt.None?
  {
    WorkoutSession(id, user, workout, InProgress, 0, 0, 0.0, 0, 0.0, 0, now, None)
  }

  /** `{m:02d}` for a minute count. */
  function Pad2(m: nat): (s: string)
    requires m < 100
    ensures |s| == 2 && AllDigits(s) && DigitsValue(s) == m
  {
    var s := [DigitChar(m / 10), DigitChar(m % 10)];
    assert DigitsValue(s[..1]) == m / 10 by {
      assert s[..1][..0] == [];
    }
    s
  }

  /** Whole hours of a duration (Python's floor division). */
  function Hours(seconds: int): int {
    seconds / 3600
  }

  /** The whole minutes left over after the whole hours. */
  function Minutes(seconds: int): (m: nat)
    ensures m < 60
    ensures Hours(seconds) * 3600 + m * 60 <= seconds < Hours(seconds) * 3600 + m * 60 + 60
  {
    (seconds % 3600) / 60
  }

  /** `duration_formatted`: "H:MM" once the session lasted an hour, otherwise the minutes
      followed by ":00". */
  function DurationFormatted(seconds: int): (f: string)
    ensures Hours(seconds) > 0 ==> f == NatToString(Hours(seconds)) + ":" + Pad2(Minutes(seconds))
    ensures Hours(seconds) <= 0 ==> f == NatToString(Minutes(seconds)) + ":00"
  {
    var hours := seconds / 3600;
    var minutes := (seconds % 3600) / 60;
    if hours > 0 then NatToString(hours) + ":" + Pad2(minutes)
    else NatToString(minutes) + ":00"
  }

  /** Reads a rendered duration back into its two numbers, the text before and after the ':'. */
  function ReadDuration(f: string): Option<(nat, nat)> {
    var k := IndexOf(f, ':');
    if k == |f| then None
    else
      match (ParseNat(f[..k]), ParseNat(f[k + 1..]))
      case (Some(a), Some(b)) => Some((a, b))
      case _ => None
  }

  lemma ReadJoined(a: nat, b: string)
    requires b != [] && AllDigits(b)
    ensures ReadDuration(NatToString(a) + ":" + b) == Some((a, DigitsValue(b)))
  {
    var f := NatToString(a) + ":" + b;
    var n := |NatToString(a)|;
    assert forall i :: 0 <= i < n ==> f[i] == NatToString(a)[i];
    assert IndexOf(f, ':') == n by {
      assert f[n] == ':';
      assert forall i :: 0 <= i < n ==> f[i] != ':' by {
        forall i | 0 <= i < n ensures f[i] != ':' {
          assert IsDigit(NatToString(a)[i]);
        }
      }
    }
    assert f[..n] == NatToString(a);
    assert f[n + 1..] == b;
    ParseNatToString(a);
  }

  /** An hour or more reads back as its hours and its leftover minutes. */
  lemma {:induction false} DurationRoundTripHours(seconds: int)
    requires seconds >= 3600
    ensures ReadDuration(DurationFormatted(seconds)) == Some((Hours(seconds), Minutes(seconds)))
  {
    ReadJoined(Hours(seconds), Pad2(Minutes(seconds)));
  }

  /** Under an hour reads back as the minutes, with 0 in the second slot. */
  lemma {:induction false} DurationRoundTripMinutes(seconds: int)
    requires 0 <= seconds < 3600
    ensures ReadDuration(DurationFormatted(seconds)) == Some((seconds / 60, 0))
  {
    assert Hours(seconds) == 0 && Minutes(seconds) == seconds / 60;
    assert DigitsValue("00") == 0 by {
      assert "00"[..1] == "0" && "0"[..0] == [];
    }
    assert AllDigits("00");
    assert DurationFormatted(seconds) == NatToString(Minutes(seconds)) + ":" + "00";
    ReadJoined(Minutes(seconds), "00");
  }

  /** The two shapes share their strings: five minutes and five hours both render "5:00". */
  lemma DurationShapesOverlap()
    ensures DurationFormatted(300) == DurationFormatted(18000) == "5:00"
  {
    assert NatToString(5) == "5";
    assert Pad2(0) == "00";
  }

  /** The seconds below a whole minute never show: a duration renders like its whole minutes. */
  lemma {:induction false} DurationIgnoresSeconds(seconds: int)
    ensures DurationFormatted(seconds) == DurationFormatted(seconds - seconds % 60)
  {
    var t := seconds - seconds % 60;
    assert t == (seconds / 60) * 60;
    assert t / 60 == seconds / 60;
    PartsOfWholeMinutes(seconds);
    PartsOfWholeMinutes(t);
  }

  /** Both parts are functions of the whole minutes `seconds / 60`. */
  lemma PartsOfWholeMinutes(seconds: int)
    ensures Hours(seconds) == (seconds / 60) / 60 && Minutes(seconds) == (seconds / 60) % 60
  {
    var q := seconds / 60;
    var h, m := q / 60, q % 60;
    assert q * 60 <= seconds < q * 60 + 60;
    assert h * 3600 + m * 60 == q * 60;
    MinuteFloorsEqual(seconds, h, m);
  }

  /** A duration lying in the minute that starts at `h` hours and `m` minutes has those parts. */
  lemma MinuteFloorsEqual(t: int, h: int, m: nat)
    requires m < 60
    requires h * 3600 + m * 60 <= t < h * 3600 + m * 60 + 60
    ensures Hours(t) == h && Minutes(t) == m
  {
    assert h * 3600 <= t < h * 3600 + 3600;
    assert t / 3600 == h;
    assert t % 3600 == t - h * 3600;
  }
}
