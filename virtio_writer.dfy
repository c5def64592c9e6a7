/**
 * The virtio descriptor-chain `Writer`, as the video responses use it: an
 * append-only sequence of records with a finite remaining capacity. A record that
 * does not fit is not written, and the write fails with an I/O error.
 */
module VirtioWriter {
  import opened Wrappers

  datatype IoError = WriteZero

  /** The part of `xs` that fits when `room` records can still be written. */
  function Accepted<T>(xs: seq<T>, room: nat): (a: seq<T>)
    ensures |xs| <= room ==> a == xs
    ensures |xs| > room ==> a == xs[..room]
  {
    if |xs| <= room then xs else xs[..room]
  }

  /** Writing `a` then `b` accepts what writing `a + b` in one go accepts. */
  lemma AcceptedAppend<T>(a: seq<T>, b: seq<T>, room: nat)
    ensures Accepted(a + b, room) ==
              if |a| <= room then a + Accepted(b, room - |a|) else Accepted(a, room)
  {
    if |a| <= room && |a + b| > room {
      assert (a + b)[..room] == a + b[..room - |a|];
    } else if |a| > room {
      assert (a + b)[..room] == a[..room];
    }
  }

  class Writer<T> {
    var written: seq<T>
    var room: nat

    constructor (room: nat)
      ensures written == [] && this.room == room
    {
      written := [];
      this.room := room;
    }

    /** `write_obj`. */
    method WriteObj(x: T) returns (r: Result<(), IoError>)
      modifies this
      ensures r.Ok? <==> old(room) > 0
      ensures written == old(written) + Accepted([x], old(room))
      ensures room == old(room) - |Accepted([x], old(room))|
    {
      if room == 0 {
        return Err(WriteZero);
      }
      written := written + [x];
      room := room - 1;
      return Ok(());
    }

    /** `write_iter`: writes the items in order, stopping at the first failure. */
    method WriteIter(xs: seq<T>) returns (r: Result<(), IoError>)
      modifies this
      ensures r.Ok? <==> |xs| <= old(room)
      ensures written == old(written) + Accepted(xs, old(room))
      ensures room == old(room) - |Accepted(xs, old(room))|
    {
      var i := 0;
      while i < |xs|
        invariant i <= |xs| && i <= old(room)
        invariant written == old(written) + xs[..i]
        invariant room == old(room) - i
      {
        var res := WriteObj(xs[i]);
        if res.Err? {
          return res;
        }
        i := i + 1;
      }
      assert xs[..i] == xs;
      return Ok(());
    }
  }
}
