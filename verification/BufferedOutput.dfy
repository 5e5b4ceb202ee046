/**
 The buffered writer StreamUsage forwards through (Go's bufio.Writer, with its
 default size), over a destination that takes `capacity` bytes and then fails.
 */
module BufferedOutput {
  const BUFFER_SIZE := 4096

  /** The part of a stream that a destination of that capacity receives. */
  function Received(stream: string, capacity: nat): string {
    if |stream| > capacity then stream[..capacity] else stream
  }

  /**
   How many bytes stay in the buffer after a piece of n bytes: a piece that fits is kept,
   one that does not first fills the buffer, and a large one into an empty buffer is
   passed straight on.
   */
  function Held(held: nat, n: nat): (h: nat)
    requires held <= BUFFER_SIZE
    ensures h <= BUFFER_SIZE && h <= held + n
    decreases held
  {
    if n <= BUFFER_SIZE - held then held + n
    else if held == 0 then 0
    else Held(0, n - (BUFFER_SIZE - held))
  }

  class BufferedWriter {
    var destination: string
    var room: nat
    var buffer: string
    var failed: bool
    // Everything handed to Write, how much of it would be in the buffer, and the room at the start.
    ghost var given: string
    ghost var held: nat
    ghost const capacity: nat

    ghost predicate Valid()
      reads this
    {
      && |destination| + room == capacity && |buffer| <= BUFFER_SIZE && held <= BUFFER_SIZE
      && if failed then |given| - held > capacity && destination == given[..capacity]
         else destination + buffer == given && |buffer| == held
    }

    constructor (capacity: nat)
      ensures Valid() && given == "" && held == 0 && !failed && this.capacity == capacity
    {
      destination, room, buffer, failed := "", capacity, "", false;
      given, held, this.capacity := "", 0, capacity;
    }

    /** One write to the destination: all of it, or what there is room for and an error. */
    method Deliver(data: string)
      modifies `destination, `room, `failed
      ensures if |data| <= old(room)
              then destination == old(destination) + data && room == old(room) - |data| && failed == old(failed)
              else destination == old(destination) + data[..old(room)] && room == 0 && failed
    {
      if |data| <= room {
        destination, room := destination + data, room - |data|;
      } else {
        destination, room, failed := destination + data[..room], 0, true;
      }
    }

    /** The end of the stream: it fails exactly when something failed before, or not all fits. */
    method Flush() returns (ok: bool)
      requires Valid()
      modifies this
      ensures Valid() && given == old(given) && ok == !failed
      ensures ok <==> |given| <= capacity
      ensures destination == Received(given, capacity)
    {
      if failed {
        return false;
      }
      Deliver(buffer);
      if failed {
        Cut(given, old(destination), buffer, capacity);
        held := 0;
        return false;
      }
      buffer, held := "", 0;
      ok := true;
    }

    /** Fill the buffer and flush it, or pass a large piece straight on, until the rest fits. */
    method Write(data: string) returns (ok: bool)
      requires Valid()
      modifies this
      ensures Valid() && ok == !failed && (old(failed) ==> failed)
      ensures given == old(given) + data && held == Held(old(held), |data|)
    {
      ghost var all, kept := given + data, Held(held, |data|);
      if failed {
        assert all[..capacity] == given[..capacity];
        given, held := all, kept;
        return false;
      }
      var rest := data;
      given := all;
      assert destination + buffer + rest == all;
      while |rest| > BUFFER_SIZE - |buffer| && !failed
        invariant |destination| + room == capacity && |buffer| <= BUFFER_SIZE && given == all
        invariant if failed then |all| - kept > capacity && destination == all[..capacity]
                  else destination + buffer + rest == all && Held(|buffer|, |rest|) == kept
        decreases |rest|, |buffer|, !failed
      {
        rest := PassOn(rest, all, kept);
      }
      held := kept;
      if failed {
        return false;
      }
      assert destination + (buffer + rest) == destination + buffer + rest;
      buffer := buffer + rest;
      ok := true;
    }

    /** One turn of the loop of Write. */
    method PassOn(rest: string, ghost all: string, ghost kept: nat) returns (left: string)
      requires |destination| + room == capacity && |buffer| <= BUFFER_SIZE && !failed
      requires |rest| > BUFFER_SIZE - |buffer| && destination + buffer + rest == all
      requires Held(|buffer|, |rest|) == kept
      modifies `destination, `room, `failed, `buffer
      ensures |destination| + room == capacity && |buffer| <= BUFFER_SIZE
      ensures if failed then |all| - kept > capacity && destination == all[..capacity]
              else destination + buffer + left == all && Held(|buffer|, |left|) == kept
      ensures |left| < |rest| || (|left| == |rest| && |buffer| < |old(buffer)|)
    {
      if buffer == "" {
        left := "";
        Deliver(rest);
        if failed {
          Cut(all, old(destination), rest, capacity);
        }
      } else {
        var n := BUFFER_SIZE - |buffer|;
        left := rest[n..];
        ghost var full := buffer + rest[..n];
        Regroup(destination, buffer, rest, n);
        Deliver(buffer + rest[..n]);
        if failed {
          CutEarly(all, old(destination), full, left, capacity);
          assert kept <= |left|;
        }
        buffer := "";
      }
    }
  }

  lemma Regroup(a: string, b: string, c: string, n: nat)
    requires n <= |c|
    ensures a + b + c == a + (b + c[..n]) + c[n..]
  {
  }

  /** A piece that does not fit leaves the destination with the first `capacity` bytes. */
  lemma Cut(all: string, before: string, piece: string, capacity: nat)
    requires all == before + piece && |before| <= capacity < |before| + |piece|
    ensures |all| > capacity && before + piece[..capacity - |before|] == all[..capacity]
  {
  }

  lemma CutEarly(all: string, before: string, piece: string, later: string, capacity: nat)
    requires all == before + piece + later && |before| <= capacity < |before| + |piece|
    ensures |all| - |later| > capacity && before + piece[..capacity - |before|] == all[..capacity]
  {
  }
}
