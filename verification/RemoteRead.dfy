/** What a one-sided READ does to memory: it copies byte ranges from remote ranks into local
    addresses. The network may complete the copies in any order. */
module RemoteRead {

  /** The byte stored at each address. */
  type Memory = int -> int

  /** Copy `len` bytes of remote rank `rank` from `src` to the local address `dst`. */
  datatype Copy = Copy(rank: nat, dst: int, src: int, len: int)

  predicate Writes(c: Copy, a: int) {
    c.dst <= a < c.dst + c.len
  }

  /** No address is written by two different copies. */
  ghost predicate Compatible(cs: seq<Copy>) {
    forall c, d, a {:trigger Writes(c, a), Writes(d, a)} | c in cs && d in cs && Writes(c, a) && Writes(d, a) :: c == d
  }

  function Perform(c: Copy, remotes: nat -> Memory, local: Memory): Memory {
    a => if Writes(c, a) then remotes(c.rank)(c.src + (a - c.dst)) else local(a)
  }

  /** Local memory after performing the copies in the order given. */
  function PerformAll(cs: seq<Copy>, remotes: nat -> Memory, local: Memory): Memory {
    if cs == [] then local
    else Perform(cs[|cs| - 1], remotes, PerformAll(cs[..|cs| - 1], remotes, local))
  }

  /** An address that no copy writes keeps its byte. */
  lemma {:induction false} Untouched(cs: seq<Copy>, remotes: nat -> Memory, local: Memory, a: int)
    requires forall c | c in cs :: !Writes(c, a)
    ensures PerformAll(cs, remotes, local)(a) == local(a)
  {
    if cs != [] {
      Untouched(cs[..|cs| - 1], remotes, local, a);
    }
  }

  /** An address written by exactly one of the copies gets that copy's byte. */
  lemma {:induction false} Written(cs: seq<Copy>, remotes: nat -> Memory, local: Memory, c: Copy, a: int)
    requires c in cs && Writes(c, a)
    requires forall d | d in cs && Writes(d, a) :: d == c
    ensures PerformAll(cs, remotes, local)(a) == remotes(c.rank)(c.src + (a - c.dst))
  {
    var last := cs[|cs| - 1];
    if !Writes(last, a) {
      assert cs == cs[..|cs| - 1] + [last];
      Written(cs[..|cs| - 1], remotes, local, c, a);
    }
  }

  /** Compatible copies leave the same memory in whatever order (and however often) they complete. */
  lemma OrderIrrelevant(cs: seq<Copy>, ds: seq<Copy>, remotes: nat -> Memory, local: Memory, a: int)
    requires Compatible(cs)
    requires forall c :: c in cs <==> c in ds
    ensures PerformAll(ds, remotes, local)(a) == PerformAll(cs, remotes, local)(a)
  {
    if c :| c in cs && Writes(c, a) {
      Written(cs, remotes, local, c, a);
      Written(ds, remotes, local, c, a);
    } else {
      Untouched(cs, remotes, local, a);
      Untouched(ds, remotes, local, a);
    }
  }
}
