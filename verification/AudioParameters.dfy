/**
 RealtimeSnapshotStore and AudioCommandQueue as objects, each call taken on its own. What
 their calls do when they interleave step by step is in SnapshotStore and SpscRing.
 */
module AudioParameters {

  import Arithmetic
  import opened SnapshotStore
  import opened Wrappers

  // The slot holding the newest parameters.
  function NewestSlot(mailbox: nat, front: nat): nat
  {
    if IsDirty(mailbox) then IndexOf(mailbox) else front
  }

  class ParameterStore<P> {
    var writerState: P
    var slots: seq<P>
    var mailbox: nat
    var front: nat
    var back: nat

    // The three indices are a permutation of 0, 1, 2 and the newest slot is what was written.
    ghost predicate Valid()
      reads this
    {
      && |slots| == 3 && front < 3 && back < 3 && IndexOf(mailbox) < 3
      && front != back && back != IndexOf(mailbox) && IndexOf(mailbox) != front
      && slots[NewestSlot(mailbox, front)] == writerState
    }

    constructor (initial: P)
      ensures Valid() && writerState == initial
    {
      Encoding(1);
      writerState := initial;
      slots := [initial, initial, initial];
      mailbox := 1;
      front := 0;
      back := 2;
    }

    method Update(change: P -> P)
      requires Valid()
      modifies this
      ensures Valid() && writerState == change(old(writerState)) && front == old(front)
    {
      Encoding(back);
      hide IndexOf, IsDirty;
      writerState := change(writerState);
      slots := slots[back := writerState];
      var previous := mailbox;
      mailbox := back + DIRTY;
      back := IndexOf(previous);
    }

    // The newest parameters, which also stay in front until the next update.
    method Snapshot() returns (parameters: P)
      requires Valid()
      modifies this
      ensures Valid() && parameters == writerState == old(writerState)
      ensures !IsDirty(mailbox) && back == old(back)
    {
      Encoding(front);
      hide IndexOf, IsDirty;
      var pending := mailbox;
      if IsDirty(pending) {
        var previous := mailbox;
        mailbox := front;
        front := IndexOf(previous);
      }
      parameters := slots[front];
    }
  }

  // The entries of a ring between two cursors.
  function Between<T>(ring: seq<T>, read: nat, write: nat): (entries: seq<T>)
    requires read < |ring| && write < |ring|
    ensures |entries| == if read <= write then write - read else write + |ring| - read
  {
    if read <= write then ring[read..write] else ring[read..] + ring[..write]
  }

  function Increment(index: nat, capacity: nat): (next: nat)
    requires index < capacity
    ensures next == if index + 1 == capacity then 0 else index + 1
  {
    if index + 1 < capacity then Arithmetic.QuotientUnique(index + 1, capacity, 0, index + 1); (index + 1) % capacity
    else Arithmetic.QuotientUnique(capacity, capacity, 1, 0); (index + 1) % capacity
  }

  class CommandQueue<T> {
    const commands: array<T>
    var read: nat
    var write: nat
    var dropped: nat

    ghost predicate Valid()
      reads this
    {
      commands.Length >= 2 && read < commands.Length && write < commands.Length
    }

    ghost function Contents(): seq<T>
      requires Valid()
      reads this, commands
    {
      Between(commands[..], read, write)
    }

    constructor (capacity: nat, filler: T)
      requires capacity >= 2
      ensures Valid() && fresh(commands) && commands.Length == capacity && Contents() == [] && dropped == 0
    {
      commands := new T[capacity](_ => filler);
      read, write, dropped := 0, 0, 0;
    }

    // Adds a command, or drops it when one slot less than the capacity is taken.
    method Push(command: T) returns (accepted: bool)
      requires Valid()
      modifies this, commands
      ensures Valid() && accepted == (|old(Contents())| < commands.Length - 1)
      ensures Contents() == if accepted then old(Contents()) + [command] else old(Contents())
      ensures dropped == old(dropped) + (if accepted then 0 else 1)
    {
      var next := Increment(write, commands.Length);
      if next == read {
        dropped := dropped + 1;
        return false;
      }
      ghost var before := commands[..];
      commands[write] := command;
      assert commands[..] == before[write := command];
      write := next;
      accepted := true;
    }

    // Takes the oldest command.
    method Pop() returns (command: Option<T>)
      requires Valid()
      modifies this
      ensures Valid() && dropped == old(dropped)
      ensures if old(Contents()) == [] then command == None && Contents() == []
              else command == Some(old(Contents())[0]) && Contents() == old(Contents())[1..]
    {
      if read == write {
        return None;
      }
      command := Some(commands[read]);
      read := Increment(read, commands.Length);
    }
  }
}
