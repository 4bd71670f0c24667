/**
  devtunnel's output: the last 64KB of what a host process writes, trimmed in place by each Write.
*/
module TailBuffer {
  const LIMIT: nat := 64 * 1024

  /** The last LIMIT bytes of s, or all of it. */
  function Tail(s: seq<bv8>): seq<bv8> { if |s| <= LIMIT then s else s[|s| - LIMIT..] }

  /** Everything the writes wrote. */
  function Written(writes: seq<seq<bv8>>): seq<bv8> {
    if writes == [] then [] else Written(writes[..|writes| - 1]) + writes[|writes| - 1]
  }

  /** Each write goes after all that was written before it. */
  lemma {:induction false} WrittenInOrder(writes: seq<seq<bv8>>, i: nat)
    requires i < |writes|
    ensures |Written(writes[..i])| + |writes[i]| == |Written(writes[..i + 1])| <= |Written(writes)| && Written([]) == []
    ensures Written(writes)[|Written(writes[..i])|..|Written(writes[..i])| + |writes[i]|] == writes[i]
  {
    var n := |writes| - 1;
    if i < n {
      WrittenInOrder(writes[..n], i);
      assert writes[..n][..i] == writes[..i] && writes[..n][..i + 1] == writes[..i + 1];
    } else {
      assert writes[..i + 1] == writes;
    }
  }

  /** What was dropped before cannot come back: trimming in between does not change the tail. */
  lemma TailOfTail(s: seq<bv8>, b: seq<bv8>)
    ensures Tail(Tail(s) + b) == Tail(s + b)
  {
    if |s| > LIMIT { assert s[|s| - LIMIT..] + b == (s + b)[|s| - LIMIT..]; }
  }

  /** What a tail ends with. */
  lemma TailEnds(s: seq<bv8>, b: seq<bv8>)
    ensures var t := Tail(s + b);
      && (|b| >= 65536 ==> t == b[|b| - 65536..])
      && (|b| < 65536 ==> |t| >= |b| && t[|t| - |b|..] == b)
      && (|s + b| <= 65536 ==> t == s + b)
  {
  }

  class Output {
    var buf: seq<bv8>
    ghost var writes: seq<seq<bv8>>

    /** After any writes the buffer is the tail of all of them. */
    ghost predicate Valid()
      reads this
    {
      buf == Tail(Written(writes))
    }

    constructor ()
      ensures Valid() && writes == []
    {
      buf, writes := [], [];
    }

    method Write(b: seq<bv8>) returns (n: nat)
      requires Valid()
      modifies this
      ensures Valid() && writes == old(writes) + [b] && n == |b|
      ensures |b| >= 65536 ==> buf == b[|b| - 65536..]
      ensures |b| < 65536 ==> |buf| >= |b| && buf[|buf| - |b|..] == b
      ensures |old(buf) + b| <= 65536 ==> buf == old(buf) + b
    {
      TailOfTail(Written(writes), b);
      TailEnds(buf, b);
      assert (writes + [b])[..|writes|] == writes;
      writes := writes + [b];
      buf := buf + b;
      var over := |buf| - LIMIT;
      if over > 0 { buf := buf[over..]; }
      assert buf == Tail(old(buf) + b);
      n := |b|;
    }

    method String() returns (s: seq<bv8>)
      requires Valid()
      ensures var all := Written(writes);
        |s| == (if |all| < 65536 then |all| else 65536) && s == all[|all| - |s|..]
    {
      s := buf;
    }
  }
}
