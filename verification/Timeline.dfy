/** Sequences in time order: the stretch between two moments, and the server page that starts it. */
module Timeline {
  import opened Prelude

  ghost predicate InTimeOrder<T>(s: seq<T>, time: T -> int) {
    forall i, j | 0 <= i < j < |s| :: time(s[i]) <= time(s[j])
  }

  function Between<T>(time: T -> int, from: int, to: int): T -> bool {
    (x: T) => from <= time(x) <= to
  }

  /** A page: the first rows of an answer, up to the limit. */
  function First<T>(s: seq<T>, limit: nat): seq<T> {
    if |s| <= limit then s else s[..limit]
  }

  /** How many elements come before the given moment. */
  function Position<T>(s: seq<T>, time: T -> int, moment: int): (k: nat)
    ensures k <= |s|
  {
    if |s| == 0 || time(s[|s| - 1]) < moment then |s| else Position(s[..|s| - 1], time, moment)
  }

  lemma {:induction false} PositionMeaning<T>(s: seq<T>, time: T -> int, moment: int)
    requires InTimeOrder(s, time)
    ensures forall i | 0 <= i < |s| :: time(s[i]) < moment <==> i < Position(s, time, moment)
  {
    if |s| > 0 {
      var n := |s| - 1;
      if time(s[n]) >= moment {
        PositionMeaning(s[..n], time, moment);
        forall i | 0 <= i < n ensures time(s[i]) < moment <==> i < Position(s, time, moment) {
          assert s[i] == s[..n][i];
        }
      }
    }
  }

  lemma {:induction false} PositionGrows<T>(s: seq<T>, time: T -> int, moment: int, later: int)
    requires moment <= later
    ensures Position(s, time, moment) <= Position(s, time, later)
  {
    if |s| > 0 && time(s[|s| - 1]) >= later {
      PositionGrows(s[..|s| - 1], time, moment, later);
    }
  }

  /** What lies between two moments is one stretch. */
  lemma BetweenIsSlice<T>(s: seq<T>, time: T -> int, from: int, to: int)
    requires InTimeOrder(s, time) && from <= to + 1
    ensures Position(s, time, from) <= Position(s, time, to + 1)
    ensures Keep(s, Between(time, from, to)) == s[Position(s, time, from)..Position(s, time, to + 1)]
  {
    hide Keep, Position;
    PositionMeaning(s, time, from);
    PositionMeaning(s, time, to + 1);
    PositionGrows(s, time, from, to + 1);
    KeepStretch(s, Between(time, from, to), Position(s, time, from), Position(s, time, to + 1));
  }
}
