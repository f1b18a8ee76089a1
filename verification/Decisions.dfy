/** The decision vocabulary shared by the policy, the watcher and the daemon (`watcher/decision.py`). */
module Decisions {
  import opened Strings

  datatype Decision = Allow | Deny | Quarantine | Kill

  datatype Risk = Normal | Elevated | High | Critical

  datatype Evaluation = Evaluation(decision: Decision, risk: Risk, reason: string, rule: string,
                                   tripwireId: Option<string>)

  function Severity(d: Decision): nat {
    match d
    case Allow => 0
    case Deny => 1
    case Quarantine => 2
    case Kill => 3
  }

  predicate Blocked(d: Decision) {
    d != Allow
  }
}
