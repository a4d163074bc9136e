/**
 * The loop functions of an evaluation worker only remember which trial
 * is being run, so that each trial can be set up differently.
 */
module MpgaLoop {
  class MpgaLoopFunctions {
    /** The trial currently being run (m_unTrial). */
    var trial: nat

    /** A fresh object reports trial 0. */
    constructor()
      ensures trial == 0
    {
      trial := 0;
    }

    function GetTrial(): nat
      reads this
    {
      trial
    }

    /** Records the trial number and changes nothing else. */
    method SetTrial(t: nat)
      modifies this`trial
      ensures GetTrial() == t
    {
      trial := t;
    }
  }
}
