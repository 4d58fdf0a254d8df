/** checkSelfEviction: the process gives up when it is about to act on the node it runs on. */
module SelfEviction {
  import opened Options

  /** A *cron.Cron: nil until the job was started. */
  datatype Cron = Nil | Running | Stopped

  /** `Panics` is Stop on a nil cron, which takes the process down. */
  datatype Outcome = NotAffected | Evicts | Panics

  class Crons {
    var repair: Cron
    var update: Cron

    constructor (repair: Cron, update: Cron)
      ensures this.repair == repair && this.update == update
    {
      this.repair, this.update := repair, update;
    }

    predicate Quiet()
      reads this
    {
      !repair.Running? && !update.Running?
    }

    /** `self` is the name of the own node, if node name, namespace and pod are all configured. The guard of the second
        Stop looks at the first cron. */
    method CheckSelfEviction(self: Option<string>, name: string) returns (o: Outcome)
      modifies this
      ensures o.NotAffected? <==> self != Some(name)
      ensures o.NotAffected? ==> repair == old(repair) && update == old(update)
      ensures o.Panics? <==> self == Some(name) && !old(repair).Nil? && old(update).Nil?
      ensures o.Evicts? ==> (repair.Nil? <==> old(repair).Nil?) && (update.Nil? <==> old(update).Nil?)
      ensures o.Evicts? ==> (Quiet() <==> !(old(repair).Nil? && old(update).Running?))
    {
      if self != Some(name) {
        return NotAffected;
      }
      if repair != Nil {
        repair := Stopped;
      }
      if repair != Nil {
        if update == Nil {
          return Panics;
        }
        update := Stopped;
      }
      return Evicts;
    }
  }
}
