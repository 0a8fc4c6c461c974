/**
 * The message of the final mayhem service (mayhem.py): besides its identity
 * (instance name, an opaque uuid string as message id, the derived hostname)
 * it carries two status flags that the consumer's two independent tasks set,
 * restart_host the `restarted` flag and save the `saved` flag.
 */
module Mayhem {
  import opened Options
  import opened Naming

  /** The value of every field of a message at one moment. */
  datatype Status = Status(instanceName: string, messageId: string, hostname: string, restarted: bool, saved: bool)

  /** The state effect that completes when one of the consumer's tasks finishes. */
  datatype Effect = HostRestarted | RecordSaved

  function Apply(s: Status, e: Effect): (t: Status)
  {
    match e
    case HostRestarted => s.(restarted := true)
    case RecordSaved => s.(saved := true)
  }

  /** The status after the given effects complete, in the given order. */
  function ApplyAll(s: Status, effects: seq<Effect>): (t: Status)
    decreases |effects|
  {
    if effects == [] then s else ApplyAll(Apply(s, effects[0]), effects[1..])
  }

  /** t is reachable from s: same identity, and no flag that was set has been cleared. */
  predicate Below(s: Status, t: Status) {
    && s.instanceName == t.instanceName && s.messageId == t.messageId && s.hostname == t.hostname
    && (s.restarted ==> t.restarted) && (s.saved ==> t.saved)
  }

  /**
   * Whatever effects complete, in whatever order and however often, the result
   * depends only on which of them happened: each sets its own flag and nothing else.
   */
  lemma {:induction false} ApplyAllOrderFree(s: Status, effects: seq<Effect>)
    ensures ApplyAll(s, effects)
         == s.(restarted := s.restarted || HostRestarted in effects,
               saved := s.saved || RecordSaved in effects)
    decreases |effects|
  {
    if effects != [] {
      assert effects == [effects[0]] + effects[1..];
      ApplyAllOrderFree(Apply(s, effects[0]), effects[1..]);
    }
  }

  /** Flags only move from false to true: the identity is kept and no flag is reset. */
  lemma {:induction false} ApplyAllOnlyRaises(s: Status, effects: seq<Effect>)
    ensures Below(s, ApplyAll(s, effects))
  {
    ApplyAllOrderFree(s, effects);
  }

  /** Each effect is idempotent, and the two effects commute. */
  lemma EffectsCommute(s: Status, e: Effect, f: Effect)
    ensures Apply(Apply(s, e), e) == Apply(s, e)
    ensures Apply(Apply(s, e), f) == Apply(Apply(s, f), e)
  {
  }

  /** PubSubMessage of mayhem.py; every field is mutable, as an attrs instance is. */
  class PubSubMessage {
    var instanceName: string
    var messageId: string
    var hostname: string
    var restarted: bool
    var saved: bool

    function State(): Status
      reads this
    {
      Status(instanceName, messageId, hostname, restarted, saved)
    }

    /** Both flags are optional arguments that default to false; the post-init hook derives the hostname. */
    constructor (instanceName: string, messageId: string, restarted: bool := false, saved: bool := false)
      ensures this.instanceName == instanceName && this.messageId == messageId
      ensures InstanceNameOf(hostname) == Some(instanceName)
      ensures this.restarted == restarted && this.saved == saved
    {
      this.instanceName := instanceName;
      this.messageId := messageId;
      this.hostname := Hostname(instanceName);
      this.restarted := restarted;
      this.saved := saved;
      HostnameRoundTrip(instanceName, Hostname(instanceName));
    }
  }

  /** One round of publish: a new message for a random host id and a fresh uuid. */
  method NewMessage(messageId: string, hostId: HostId) returns (msg: PubSubMessage)
    ensures fresh(msg)
    ensures HostIdOf(msg.instanceName) == Some(hostId) && msg.messageId == messageId
    ensures InstanceNameOf(msg.hostname) == Some(msg.instanceName)
    ensures !msg.restarted && !msg.saved
  {
    var instanceName := InstanceName(hostId);
    InstanceNameRoundTrip(hostId, instanceName);
    msg := new PubSubMessage(instanceName, messageId);
  }

  /** restart_host(msg): marks the message's host as restarted. */
  method RestartHost(msg: PubSubMessage)
    modifies msg
    ensures msg.State() == Apply(old(msg.State()), HostRestarted)
  {
    msg.restarted := true;
  }

  /** save(msg): marks the message as saved to the database. */
  method Save(msg: PubSubMessage)
    modifies msg
    ensures msg.State() == Apply(old(msg.State()), RecordSaved)
  {
    msg.saved := true;
  }

  /**
   * What the consumer's two tasks do to one message, in the order in which
   * they happen to complete: either order leaves both flags set and the
   * identity unchanged.
   */
  method Handle(msg: PubSubMessage, restartFirst: bool)
    modifies msg
    ensures msg.State() == ApplyAll(old(msg.State()), [HostRestarted, RecordSaved])
    ensures msg.restarted && msg.saved && Below(old(msg.State()), msg.State())
  {
    if restartFirst {
      RestartHost(msg);
      Save(msg);
    } else {
      Save(msg);
      RestartHost(msg);
    }
    ApplyAllOrderFree(old(msg.State()), [HostRestarted, RecordSaved]);
  }
}
