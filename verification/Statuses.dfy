/** The commit statuses, labels and events an evaluation leaves behind, where any call may fail. */
module Statuses {
  import opened Wrappers
  import opened Labels

  /** What a call that may panic gives. */
  datatype Outcome<+T> = Value(value: T) | Panicked {
    predicate IsFailure() { Panicked? }
    function PropagateFailure<U>(): Outcome<U> requires IsFailure() { Panicked }
    function Extract(): T requires !IsFailure() { value }
  }

  /** The same for a call that gives nothing. */
  datatype Reply = Done | Broken {
    predicate IsFailure() { Broken? }
    function PropagateFailure<U>(): Outcome<U> requires IsFailure() { Panicked }
  }

  datatype State = Pending | Success | Failure | Error

  datatype Post = Post(context: string, description: string, state: State)

  /** What the worker reports about itself. */
  datatype Event =
    | IssueAlreadyClosed
    | IssueFetchFailed
    | EvaluationDuration(branch: string)
    | EvaluationDurationCount(branch: string)
    | TaskEvaluationCheckComplete

  /**
   * What an evaluation calls on. `works` tells which calls of GitHub, git and
   * nix can be made at all, `delivers` which events can be published; a call
   * or an event for which that is false is a panic.
   */
  class Host {
    const works: nat -> bool
    const delivers: nat -> bool
    const issue: Issue
    var calls: nat
    var attempts: nat
    var posted: seq<Post>
    var events: seq<Event>

    constructor (works: nat -> bool, delivers: nat -> bool, issue: Issue)
      ensures this.works == works && this.delivers == delivers && this.issue == issue
      ensures calls == 0 && attempts == 0 && posted == [] && events == []
    {
      this.works, this.delivers, this.issue := works, delivers, issue;
      calls, attempts, posted, events := 0, 0, [], [];
    }

    /** No call fails, of the issue or another. */
    ghost predicate Reliable() {
      (forall k: nat :: works(k)) && issue.Reliable()
    }

    /** One call whose failure is a panic. */
    method Call() returns (r: Reply)
      modifies this`calls
      ensures r.Done? <==> works(old(calls))
      ensures calls == old(calls) + 1
    {
      r := if works(calls) then Done else Broken;
      calls := calls + 1;
    }

    /** The same for publishing an event. */
    method Notify(event: Event) returns (r: Reply)
      modifies this`attempts, this`events
      ensures r.Done? <==> delivers(old(attempts))
      ensures attempts == old(attempts) + 1
      ensures events == old(events) + (if r.Done? then [event] else [])
    {
      r := if delivers(attempts) then Done else Broken;
      attempts := attempts + 1;
      if r.Done? {
        events := events + [event];
      }
    }

    method Create(post: Post) returns (r: Reply)
      modifies this`calls, this`posted
      ensures Reliable() ==> r.Done?
      ensures posted == old(posted) + (if r.Done? then [post] else [])
    {
      r := Call();
      if r.Done? {
        posted := posted + [post];
      }
    }
  }

  lemma Associate(a: seq<Post>, b: seq<Post>, c: seq<Post>)
    ensures a + b + c == a + (b + c)
    ensures a + b <= a + (b + c)
  {
  }

  class CommitStatus {
    const host: Host
    const context: string
    var description: string

    constructor (host: Host, context: string, description: string)
      ensures this.host == host && this.context == context && this.description == description
    {
      this.host, this.context, this.description := host, context, description;
    }

    method SetWithDescription(description: string, state: State) returns (r: Reply)
      modifies this, host`calls, host`posted
      ensures this.description == description
      ensures host.Reliable() ==> r.Done?
      ensures host.posted == old(host.posted) + (if r.Done? then [Post(context, description, state)] else [])
    {
      this.description := description;
      r := Set(state);
    }

    method Set(state: State) returns (r: Reply)
      modifies host`calls, host`posted
      ensures host.Reliable() ==> r.Done?
      ensures host.posted == old(host.posted) + (if r.Done? then [Post(context, description, state)] else [])
    {
      r := host.Create(Post(context, description, state));
    }
  }

  /** The state a context shows: that of its last post. */
  ghost predicate Shows(posts: seq<Post>, context: string, state: State) {
    exists i :: 0 <= i < |posts| && posts[i].context == context && posts[i].state == state
                && forall j :: i < j < |posts| ==> posts[j].context != context
  }
}
