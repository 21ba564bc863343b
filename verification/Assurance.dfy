/**
 The guarantees, read off the world that the consumer and worker processes run in: whatever they and the others have
 done so far, and wherever any of them was cut short, this is true of the committed offsets, the rows and the topics.
 */
module Assurance {
  import Arrival
  import Outbox
  import IntakeSafety
  import Kafka
  import opened Courier
  import OutboxSafety
  import Routing
  import opened Deployment
  import Environment

  /** A world of this deployment. */
  ghost predicate Deployed(w: Environment.World, sys: System)
    reads w, w.db
  {
    w.Valid() && w.P == Protocol(sys)
  }

  /** No committed record is lost. */
  lemma CommittedOffsetsAreSafe(w: Environment.World, sys: System, p: nat, k: nat)
    requires Deployed(w, sys) && IntakeSafety.Prudent(sys.flush)
    requires p in w.out.committed && k < w.out.committed[p]
    ensures match Routing.Classify(sys.cfg, sys.log(Kafka.Place(p, k)))
      case DeadLetter => Kafka.Place(p, k) in w.out.dlq
      case Route(_, id, _, _) => sys.retention || id in w.db.rows
  {
    Arrival.CommittedIsHandled(sys, w.start, w.trace, p, k);
    if !sys.retention {
      Arrival.CommittedHasRow(sys, w.start, w.trace, p, k);
    }
  }

  /** The routed topics are, up to repetition, the ideal of what has been delivered, and complete once nothing is pending. */
  lemma TopicsAreRoutedOnce(w: Environment.World, sys: System)
    requires Deployed(w, sys) && Routing.Lawful(sys.cfg.lib) && !sys.retention
    ensures RoutedOnce(sys.cfg.lib, OutboxSafety.FirstWins(w.model.audit.deliveries), w.db.rows, w.out.routed)
    ensures Outbox.Contents(w.db.rows) == OutboxSafety.FirstWins(w.model.audit.deliveries)
  {
    ExactlyOnce(sys, w.start, w.trace);
    RedisIsOnlyAFastPath(sys, w.start, w.trace);
  }

  /** Nothing that could be routed is in the dead-letter topic. */
  lemma DeadLettersAreDeserved(w: Environment.World, sys: System, place: Kafka.Place)
    requires Deployed(w, sys) && place in w.out.dlq
    ensures Routing.Classify(sys.cfg, sys.log(place)).DeadLetter?
  {
    OutcomesExclude(sys, w.start, w.trace, place);
  }
}
