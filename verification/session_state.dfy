/** The states of a SIP session (sip/state/state.go) and the order in which a call leg
    moves through them. */
module SessionState {

  datatype State =
    | NotSet | BeingEstablished | Established
    | BeingCleared | Cleared | BeingRejected | Rejected | BeingCancelled | Cancelled
    | BeingFailed | Failed | BeingDenied | Denied | BeingDropped | Dropped
    | BeingRedirected | Redirected | BeingReferred | Referred | BeingNeglected | Neglected
    | BeingProbed | Probed | TimedOut | BeingRestored | BeingConnected
    | BeingUpdated | BeingReinvited | Registered | Unregistered

  const BEING := "Being"

  /** The name table of the states. */
  function Name(s: State): string {
    match s
    case NotSet => "NotSet"
    case BeingEstablished => BEING + "Established"
    case Established => "Established"
    case BeingCleared => BEING + "Cleared"
    case Cleared => "Cleared"
    case BeingRejected => BEING + "Rejected"
    case Rejected => "Rejected"
    case BeingCancelled => BEING + "Cancelled"
    case Cancelled => "Cancelled"
    case BeingFailed => BEING + "Failed"
    case Failed => "Failed"
    case BeingDenied => BEING + "Denied"
    case Denied => "Denied"
    case BeingDropped => BEING + "Dropped"
    case Dropped => "Dropped"
    case BeingRedirected => BEING + "Redirected"
    case Redirected => "Redirected"
    case BeingReferred => BEING + "Referred"
    case Referred => "Referred"
    case BeingNeglected => BEING + "Neglected"
    case Neglected => "Neglected"
    case BeingProbed => BEING + "Probed"
    case Probed => "Probed"
    case TimedOut => "TimedOut"
    case BeingRestored => BEING + "Restored"
    case BeingConnected => BEING + "Connected"
    case BeingUpdated => BEING + "Updated"
    case BeingReinvited => BEING + "Reinvited"
    case Registered => "Registered"
    case Unregistered => "Unregistered"
  }

  function TrimPrefix(s: string, prefix: string): string {
    if prefix <= s then s[|prefix|..] else s
  }

  /** Whether a step of the leg's life is still under way. */
  predicate IsPending(s: State) {
    match s
    case NotSet | Established | Cleared | Rejected | Cancelled | Failed | Denied | Dropped => false
    case Redirected | Referred | Neglected | Probed | TimedOut | Registered | Unregistered => false
    case _ => true
  }

  /** The state reached from s once its "Being" is over. Four pending states have no
      finished counterpart in the table and fall back to NotSet. */
  function FinalizeMe(s: State): State {
    match s
    case BeingEstablished => Established
    case BeingCleared => Cleared
    case BeingRejected => Rejected
    case BeingCancelled => Cancelled
    case BeingFailed => Failed
    case BeingDenied => Denied
    case BeingDropped => Dropped
    case BeingRedirected => Redirected
    case BeingReferred => Referred
    case BeingNeglected => Neglected
    case BeingProbed => Probed
    case BeingRestored => NotSet
    case BeingConnected => NotSet
    case BeingUpdated => NotSet
    case BeingReinvited => NotSet
    case _ => s
  }

  /** The pending states that FinalizeMe sends back to NotSet. */
  predicate HasNoFinalForm(s: State) {
    s in {BeingRestored, BeingConnected, BeingUpdated, BeingReinvited}
  }

  /** The phases of a leg: unset, being established, established, being ended, ended. */
  function Phase(s: State): nat {
    match s
    case NotSet => 0
    case BeingEstablished => 1
    case Established => 2
    case _ => if IsPending(s) then 3 else 4
  }

  /** The state a name of the table belongs to, told by its length and two of its letters. */
  function Recognise(n: string): State
    requires |n| >= 6
  {
    match (|n|, n[5], n[|n| - 4])
    case (16, 'E', 's') => BeingEstablished
    case (11, 'l', 's') => Established
    case (12, 'C', 'a') => BeingCleared
    case (7, 'e', 'a') => Cleared
    case (13, 'R', 'c') => BeingRejected
    case (8, 't', 'c') => Rejected
    case (14, 'C', 'l') => BeingCancelled
    case (9, 'l', 'l') => Cancelled
    case (11, 'F', 'i') => BeingFailed
    case (6, 'd', 'i') => Failed
    case (11, 'D', 'n') => BeingDenied
    case (6, 'd', 'n') => Denied
    case (12, 'D', 'p') => BeingDropped
    case (7, 'e', 'p') => Dropped
    case (15, 'R', 'c') => BeingRedirected
    case (10, 'e', 'c') => Redirected
    case (13, 'R', 'r') => BeingReferred
    case (8, 'r', 'r') => Referred
    case (14, 'N', 'c') => BeingNeglected
    case (9, 'c', 'c') => Neglected
    case (11, 'P', 'o') => BeingProbed
    case (6, 'd', 'o') => Probed
    case (8, 'O', 'd') => TimedOut
    case (13, 'R', 'o') => BeingRestored
    case (14, 'C', 'c') => BeingConnected
    case (12, 'U', 'a') => BeingUpdated
    case (14, 'R', 'i') => BeingReinvited
    case (10, 't', 'e') => Registered
    case (12, 'i', 'e') => Unregistered
    case _ => NotSet
  }

  lemma RecogniseName(s: State)
    ensures |Name(s)| >= 6 && Recognise(Name(s)) == s
  {
  }

  /** A state is pending exactly when its name says "Being". */
  lemma PendingByName(s: State)
    ensures IsPending(s) <==> BEING <= Name(s)
  {
    assert BEING[0] == 'B';
  }

  lemma TrimmedName(s: State)
    ensures TrimPrefix(Name(s), BEING) ==
            match s {
              case BeingRestored => "Restored"
              case BeingConnected => "Connected"
              case BeingUpdated => "Updated"
              case BeingReinvited => "Reinvited"
              case _ => Name(FinalizeMe(s))
            }
  {
    PendingByName(s);
  }

  /** No state is called by what remains of the four names without a final form. */
  lemma UnusedName(n: string)
    requires n in {"Restored", "Connected", "Updated", "Reinvited"}
    ensures |n| >= 6 && Name(Recognise(n))[0] != n[0]
  {
  }

  /** FinalizeMe is the name-table lookup the program performs: strip "Being" and take the
      state with the remaining name, or NotSet when no state has it. */
  lemma FinalizeMeIsTableLookup(s: State)
    ensures var n := TrimPrefix(Name(s), BEING);
            if HasNoFinalForm(s) then FinalizeMe(s) == NotSet && forall t :: Name(t) != n
            else Name(FinalizeMe(s)) == n && forall t :: Name(t) == n ==> t == FinalizeMe(s)
  {
    hide Recognise;
    var n := TrimPrefix(Name(s), BEING);
    TrimmedName(s);
    forall t: State
      ensures Name(t) == n ==> !HasNoFinalForm(s) && t == FinalizeMe(s)
    {
      RecogniseName(t);
      if HasNoFinalForm(s) {
        UnusedName(n);
      } else {
        RecogniseName(FinalizeMe(s));
      }
    }
  }

  /** Finalizing never moves a leg backwards, except from the four states without a final form. */
  lemma FinalizeMeForward(s: State)
    ensures Phase(FinalizeMe(s)) >= Phase(s) <==> !HasNoFinalForm(s)
    ensures !IsPending(FinalizeMe(s))
  {
  }
}
