/**
 * The front end's privilege set: the privileges a grant carries, one bit per
 * privilege in a single Java `long` (bit 0 is the first privilege).
 */
module PrivBitSets {
  import opened Java
  import opened Streams

  /** The privileges, with the index `getIdx()` gives each of them. */
  datatype Privilege =
    | NodePriv | AdminPriv | GrantPriv | SelectPriv | LoadPriv
    | AlterPriv | CreatePriv | DropPriv | UsagePriv | ImpersonatePriv
  {
    function Idx(): (i: nat)
      ensures i < PrivilegeCount
    {
      match this
      case NodePriv => 0
      case AdminPriv => 1
      case GrantPriv => 2
      case SelectPriv => 3
      case LoadPriv => 4
      case AlterPriv => 5
      case CreatePriv => 6
      case DropPriv => 7
      case UsagePriv => 8
      case ImpersonatePriv => 9
    }
  }

  /** `Privilege.privileges.length` */
  const PrivilegeCount: nat := 10

  /** `Privilege.privileges`: every privilege, in index order. */
  const Privileges: seq<Privilege> :=
    [NodePriv, AdminPriv, GrantPriv, SelectPriv, LoadPriv,
     AlterPriv, CreatePriv, DropPriv, UsagePriv, ImpersonatePriv]

  /** `Privilege.getPriv(index)` */
  function GetPriv(index: nat): (p: Privilege)
    requires index < PrivilegeCount
    ensures p.Idx() == index
  {
    Privileges[index]
  }

  /** The operator of a compound predicate: AND, OR or NOT. */
  datatype Operator = And | Or | Not

  /** A privilege predicate: the wanted privileges and the operator combining them. */
  datatype PrivPredicate = PrivPredicate(privs: Long, op: Operator)

  /** The bits of the given privileges. */
  function Indices(privs: seq<Privilege>): (w: Long)
    ensures forall p :: p in privs ==> p.Idx() in w
  {
    set p | p in privs :: p.Idx()
  }

  /** A word with no bit at or above `PrivilegeCount`. */
  predicate WithinPrivileges(w: Long)
  {
    forall i | i in w :: i < PrivilegeCount
  }

  predicate StrictlyAscending(privs: seq<Privilege>)
  {
    forall j, k | 0 <= j < k < |privs| :: privs[j].Idx() < privs[k].Idx()
  }

  /** The privileges among the first `n` whose bit is set in `w`, in index order. */
  function PrivilegesBelow(w: Long, n: nat): (privs: seq<Privilege>)
    requires n <= PrivilegeCount
    ensures |privs| <= n
  {
    if n == 0 then []
    else PrivilegesBelow(w, n - 1) + (if n - 1 in w then [GetPriv(n - 1)] else [])
  }

  /** What `toPrivilegeList` returns for the word `w`. */
  function PrivilegeList(w: Long): (privs: seq<Privilege>)
    ensures |privs| <= PrivilegeCount
  {
    PrivilegesBelow(w, PrivilegeCount)
  }

  lemma {:induction false} PrivilegesBelowSpec(w: Long, n: nat)
    requires n <= PrivilegeCount
    ensures StrictlyAscending(PrivilegesBelow(w, n))
    ensures forall p :: p in PrivilegesBelow(w, n) <==> p.Idx() < n && p.Idx() in w
  {
    if n > 0 {
      PrivilegesBelowSpec(w, n - 1);
      forall p: Privilege | p.Idx() == n - 1 ensures p == GetPriv(n - 1) {
      }
    }
  }

  /** `toPrivilegeList` lists exactly the set privileges, each once, in index order. */
  lemma PrivilegeListSpec(w: Long)
    ensures StrictlyAscending(PrivilegeList(w))
    ensures forall p :: p in PrivilegeList(w) <==> p.Idx() in w
  {
    PrivilegesBelowSpec(w, PrivilegeCount);
  }

  /** `of(toPrivilegeList())` gives back every set whose bits all name privileges. */
  lemma OfPrivilegeList(w: Long)
    requires WithinPrivileges(w)
    ensures Indices(PrivilegeList(w)) == w
  {
    PrivilegeListSpec(w);
    forall i | i in w ensures i in Indices(PrivilegeList(w)) {
      assert GetPriv(i) in PrivilegeList(w);
    }
  }

  /** `toPrivilegeList(of(privs))` holds the privileges of `privs` and no other. */
  lemma PrivilegeListOf(privs: seq<Privilege>)
    ensures StrictlyAscending(PrivilegeList(Indices(privs)))
    ensures forall p :: p in PrivilegeList(Indices(privs)) <==> p in privs
  {
    PrivilegeListSpec(Indices(privs));
    forall p: Privilege | p.Idx() in Indices(privs) ensures p in privs {
      var q :| q in privs && q.Idx() == p.Idx();
    }
  }

  /** The word `unset` leaves, as written: `set & ~set`, whatever the index. */
  function UnsetAsWritten(w: Long, index: int): (r: Long)
    ensures r == {}
  {
    BitAnd(w, BitNot(w))
  }

  /** The word `unset` is meant to leave: `set & ~(1 << index)`. */
  function UnsetIntended(w: Long, index: int): (r: Long)
    ensures 0 <= index < PrivilegeCount ==> r == w - {index}
  {
    BitAnd(w, BitNot(IntShiftLeftOne(index)))
  }

  /** Unsetting SELECT from {SELECT, LOAD} also drops LOAD. */
  lemma UnsetAsWrittenDropsOtherPrivileges()
    ensures UnsetAsWritten({SelectPriv.Idx(), LoadPriv.Idx()}, SelectPriv.Idx()) == {}
    ensures UnsetIntended({SelectPriv.Idx(), LoadPriv.Idx()}, SelectPriv.Idx()) == {LoadPriv.Idx()}
  {
  }

  /** A word whose bits all name privileges is empty iff no privilege bit is set. */
  lemma EmptyIffNoPrivilege(w: Long)
    ensures w == {} ==> forall i :: 0 <= i < PrivilegeCount ==> i !in w
    ensures WithinPrivileges(w) && (forall i :: 0 <= i < PrivilegeCount ==> i !in w) ==> w == {}
  {
    if w != {} {
      var i :| i in w;
    }
  }

  class PrivBitSet {
    /** The Java field `set`. */
    var bits: Long

    constructor ()
      ensures bits == {}
    {
      bits := {};
    }

    /** `set(index)`: turns the bit of `index` on; an index past the privileges fails the state check. */
    method Set(index: int) returns (r: Outcome)
      modifies this
      ensures r.Failure? <==> index >= PrivilegeCount
      ensures r.Failure? ==> r.error == IllegalStateException && bits == old(bits)
      ensures r.Success? ==> bits == BitOr(old(bits), IntShiftLeftOne(index))
      ensures 0 <= index < PrivilegeCount ==> bits == old(bits) + {index}
    {
      if index >= PrivilegeCount {
        return Failure(IllegalStateException);
      }
      bits := BitOr(bits, IntShiftLeftOne(index));
      return Success;
    }

    /** `unset(index)` as written: it clears every bit. */
    method Unset(index: int) returns (r: Outcome)
      modifies this
      ensures r.Failure? <==> index >= PrivilegeCount
      ensures r.Failure? ==> r.error == IllegalStateException && bits == old(bits)
      ensures r.Success? ==> bits == UnsetAsWritten(old(bits), index)
      ensures r.Success? ==> bits == {}
    {
      if index >= PrivilegeCount {
        return Failure(IllegalStateException);
      }
      bits := BitAnd(bits, BitNot(bits));
      return Success;
    }

    /** `unset(index)` as it is meant to be: only the bit of `index` is cleared. */
    method UnsetCorrected(index: int) returns (r: Outcome)
      modifies this
      ensures r.Failure? <==> index >= PrivilegeCount
      ensures r.Failure? ==> r.error == IllegalStateException && bits == old(bits)
      ensures r.Success? ==> bits == UnsetIntended(old(bits), index)
      ensures 0 <= index < PrivilegeCount ==> bits == old(bits) - {index}
    {
      if index >= PrivilegeCount {
        return Failure(IllegalStateException);
      }
      bits := BitAnd(bits, BitNot(IntShiftLeftOne(index)));
      return Success;
    }

    /** `get(index)`: `(set & (1 << index)) > 0`; an index past the privileges fails the state check. */
    function Get(index: int): (r: Result<bool>)
      reads this
      ensures r.Err? <==> index >= PrivilegeCount
      ensures r.Err? ==> r.error == IllegalStateException
      ensures 0 <= index < PrivilegeCount ==> r == Ok(index in bits)
    {
      if index >= PrivilegeCount then Err(IllegalStateException)
      else Ok(IsPositive(BitAnd(bits, IntShiftLeftOne(index))))
    }

    method Or(other: PrivBitSet)
      modifies this
      ensures bits == BitOr(old(bits), old(other.bits))
      ensures other != this ==> unchanged(other)
    {
      bits := BitOr(bits, other.bits);
    }

    method And(other: PrivBitSet)
      modifies this
      ensures bits == BitAnd(old(bits), old(other.bits))
      ensures other != this ==> unchanged(other)
    {
      bits := BitAnd(bits, other.bits);
    }

    method Xor(other: PrivBitSet)
      modifies this
      ensures bits == BitXor(old(bits), old(other.bits))
      ensures other != this ==> unchanged(other)
    {
      bits := BitXor(bits, other.bits);
    }

    /** `remove(privs)`: keeps the bits of this set that are not in `privs`. */
    method Remove(privs: PrivBitSet)
      modifies this
      ensures bits == BitAnd(old(bits), BitNot(old(privs.bits)))
      ensures forall i :: i in bits <==> i in old(bits) && i !in old(privs.bits)
      ensures privs != this ==> unchanged(privs)
    {
      ghost var keep := BitAnd(bits, BitNot(privs.bits));
      var tmp := Copy();
      tmp.Xor(privs);
      And(tmp);
      assert forall i :: i in bits <==> i in keep;
    }

    function IsEmpty(): (r: bool)
      reads this
      ensures r ==> forall i :: 0 <= i < PrivilegeCount ==> Get(i) == Ok(false)
      ensures WithinPrivileges(bits) && (forall i :: 0 <= i < PrivilegeCount ==> Get(i) == Ok(false)) ==> r
    {
      assert forall i :: 0 <= i < PrivilegeCount ==> (Get(i) == Ok(i in bits));
      EmptyIffNoPrivilege(bits);
      bits == {}
    }

    /**
     * `satisfy(wantPrivs)`: with AND every wanted privilege must be held,
     * with any other operator at least one of them.
     */
    function Satisfy(wantPrivs: PrivPredicate): (r: bool)
      reads this
      ensures wantPrivs.op.And? ==> (r <==> forall i :: i in wantPrivs.privs ==> i in bits)
      ensures !wantPrivs.op.And? ==> (r <==> exists i :: i in wantPrivs.privs && i in bits)
    {
      if wantPrivs.op.And? then BitAnd(bits, wantPrivs.privs) == wantPrivs.privs
      else BitAnd(bits, wantPrivs.privs) != {}
    }

    /** `containsPrivs(privs)`: some privilege of `privs` is held. */
    method ContainsPrivs(privs: seq<Privilege>) returns (r: bool)
      ensures r <==> exists p :: p in privs && p.Idx() in bits
    {
      for k := 0 to |privs|
        invariant forall j :: 0 <= j < k ==> privs[j].Idx() !in bits
      {
        if Get(privs[k].Idx()).value {
          return true;
        }
      }
      return false;
    }

    method ContainsNodePriv() returns (r: bool)
      ensures r <==> NodePriv.Idx() in bits
    {
      r := ContainsPrivs([NodePriv]);
    }

    method ContainsResourcePriv() returns (r: bool)
      ensures r <==> UsagePriv.Idx() in bits
    {
      r := ContainsPrivs([UsagePriv]);
    }

    method ContainsDbTablePriv() returns (r: bool)
      ensures r <==> exists p :: p in [SelectPriv, LoadPriv, AlterPriv, CreatePriv, DropPriv] && p.Idx() in bits
    {
      r := ContainsPrivs([SelectPriv, LoadPriv, AlterPriv, CreatePriv, DropPriv]);
    }

    method ContainsImpersonatePriv() returns (r: bool)
      ensures r <==> ImpersonatePriv.Idx() in bits
    {
      r := ContainsPrivs([ImpersonatePriv]);
    }

    /** `toPrivilegeList()`: the held privileges in index order. */
    method ToPrivilegeList() returns (privs: seq<Privilege>)
      ensures privs == PrivilegeList(bits)
      ensures StrictlyAscending(privs)
      ensures forall p :: p in privs <==> p.Idx() in bits
    {
      privs := [];
      for i := 0 to PrivilegeCount
        invariant privs == PrivilegesBelow(bits, i)
      {
        if Get(i).value {
          privs := privs + [GetPriv(i)];
        }
      }
      PrivilegeListSpec(bits);
    }

    /** Both overloads of `of(privs)`: a new set holding exactly `privs`. */
    static method Of(privs: seq<Privilege>) returns (bitSet: PrivBitSet)
      ensures fresh(bitSet)
      ensures bitSet.bits == Indices(privs)
    {
      bitSet := new PrivBitSet();
      for k := 0 to |privs|
        invariant fresh(bitSet)
        invariant bitSet.bits == Indices(privs[..k])
      {
        assert privs[..k + 1] == privs[..k] + [privs[k]];
        var _ := bitSet.Set(privs[k].Idx());
      }
      assert privs[..|privs|] == privs;
    }

    /** `copy()`: a new set with the same word. */
    method Copy() returns (newSet: PrivBitSet)
      ensures fresh(newSet)
      ensures newSet.bits == bits
    {
      newSet := new PrivBitSet();
      newSet.bits := bits;
    }

    /** `write(out)`: the word, as one long. */
    method Write(out: seq<Datum>) returns (written: seq<Datum>)
      ensures written == out + [LongDatum(bits)]
    {
      written := out + [LongDatum(bits)];
    }

    /** `readFields(in)`: the word is the long at the front of the input. */
    method ReadFields(input: seq<Datum>) returns (rest: Result<seq<Datum>>)
      modifies this
      ensures rest.Ok? <==> ReadLong(input).Ok?
      ensures rest.Ok? ==> [LongDatum(bits)] + rest.value == input
      ensures rest.Err? ==> rest.error == IOException && bits == old(bits)
    {
      var r := ReadLong(input);
      if r.Err? {
        return Err(r.error);
      }
      bits := r.value.0;
      rest := Ok(r.value.1);
    }

    /** `read(in)`: a new set read from the input. */
    static method Read(input: seq<Datum>) returns (r: Result<(PrivBitSet, seq<Datum>)>)
      ensures r.Ok? <==> ReadLong(input).Ok?
      ensures r.Ok? ==> fresh(r.value.0) && [LongDatum(r.value.0.bits)] + r.value.1 == input
      ensures r.Err? ==> r.error == IOException
    {
      var privBitSet := new PrivBitSet();
      var rest := privBitSet.ReadFields(input);
      if rest.Err? {
        return Err(rest.error);
      }
      r := Ok((privBitSet, rest.value));
    }
  }

  /** What `write` emits, `readFields` restores, and nothing more is consumed. */
  lemma WriteReadRoundTrip(w: Long, rest: seq<Datum>)
    ensures ReadLong([LongDatum(w)] + rest) == Ok((w, rest))
  {
  }
}
