/** The state groups of src/states.py. A state's full name is `Group:NAME`,
    which is how the dialog framework identifies it in storage. */
module States {

  import opened Values

  /** The four ordered steps of the feedback dialog. */
  datatype Step = DISCIPLINE | TASK | INPUT | OUTPUT {
    function Name(): string {
      match this
      case DISCIPLINE => "DISCIPLINE" case TASK => "TASK"
      case INPUT => "INPUT" case OUTPUT => "OUTPUT"
    }
    function FullName(): string { "Feedback:" + Name() }
  }

  /** The administrator group has a single state. */
  datatype AdminState = MAIN {
    function FullName(): string { "Admin:MAIN" }
  }

  /** The steps in declaration order, which is also the order of the
      dialog's windows that `next` and Back move along. */
  const Steps: seq<Step> := [DISCIPLINE, TASK, INPUT, OUTPUT]

  function IndexOf(s: Step): (i: nat)
    ensures i < |Steps| && Steps[i] == s
  {
    match s
    case DISCIPLINE => 0 case TASK => 1 case INPUT => 2 case OUTPUT => 3
  }

  /** The step `next` moves to: the following one in declaration order. */
  function Next(s: Step): (r: Option<Step>)
    ensures r.Some? <==> IndexOf(s) + 1 < |Steps|
    ensures r.Some? ==> IndexOf(r.value) == IndexOf(s) + 1
  {
    if IndexOf(s) + 1 < |Steps| then Some(Steps[IndexOf(s) + 1]) else None
  }

  /** The step Back moves to: the preceding one in declaration order. */
  function Previous(s: Step): (r: Option<Step>)
    ensures r.Some? <==> IndexOf(s) > 0
    ensures r.Some? ==> IndexOf(r.value) + 1 == IndexOf(s)
  {
    if IndexOf(s) > 0 then Some(Steps[IndexOf(s) - 1]) else None
  }

  /** The feedback group has exactly four states, pairwise distinct, in the
      order DISCIPLINE, TASK, INPUT, OUTPUT, and every step is one of them. */
  lemma FeedbackStates()
    ensures |Steps| == 4
    ensures forall i, j :: 0 <= i < j < |Steps| ==> Steps[i] != Steps[j]
    ensures forall s: Step :: s in Steps
    ensures Steps[0] == DISCIPLINE && Steps[1] == TASK && Steps[2] == INPUT && Steps[3] == OUTPUT
  {
    forall s: Step ensures s in Steps {
      assert Steps[IndexOf(s)] == s;
    }
  }

  /** Back undoes `next`: the two moves are inverse wherever both are defined. */
  lemma NextPreviousInverse(s: Step, t: Step)
    ensures Next(s) == Some(t) <==> Previous(t) == Some(s)
  {
    assert IndexOf(s) == IndexOf(t) + 1 ==> s == Steps[IndexOf(s)];
  }

  /** All five state names, across both groups, are distinct. */
  lemma StateNamesDistinct()
    ensures forall s: Step, t: Step :: s.FullName() == t.FullName() ==> s == t
    ensures forall s: Step :: s.FullName() != MAIN.FullName()
  {
    forall s: Step, t: Step | s.FullName() == t.FullName() ensures s == t {
      assert s.FullName()[9..] == s.Name();
      assert t.FullName()[9..] == t.Name();
    }
    forall s: Step ensures s.FullName() != MAIN.FullName() {
      assert s.FullName()[0] == 'F';
    }
  }
}
