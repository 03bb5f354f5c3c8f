/**
 * A database-level privilege entry: the privileges a user (from a host) holds
 * on one database, or on every database when the database is "*".
 */
module DbPrivEntries {
  import opened Java
  import opened Streams
  import opened PrivBitSets

  /** `ANY_DB` */
  const AnyDb: string := "*"

  /** What `write` emits first: the canonical name of the class. */
  const ClassName: string := "com.starrocks.mysql.privilege.DbPrivEntry"

  /** A database pattern as handed to the MySQL pattern matcher: its source text. */
  datatype MysqlPattern = MysqlPattern(source: string)

  /** `createDbPatternMatcher(db)`: "*" becomes the MySQL wildcard "%", any other name is kept. */
  function CreateDbPatternMatcher(db: string): (p: MysqlPattern)
    ensures db == AnyDb ==> p.source == "%"
    ensures db != AnyDb ==> p.source == db
  {
    MysqlPattern(if db == AnyDb then "%" else db)
  }

  /** The fields `compareTo` looks at. */
  datatype EntryKey = EntryKey(host: string, db: string, user: string)

  /** `compareTo` on keys: by host, then db, then user, each in reverse string order. */
  function CompareKeys(a: EntryKey, b: EntryKey): (r: int)
    ensures a.host != b.host ==> r == -CompareStrings(a.host, b.host)
    ensures a.host == b.host && a.db != b.db ==> r == -CompareStrings(a.db, b.db)
    ensures a.host == b.host && a.db == b.db ==> r == -CompareStrings(a.user, b.user)
  {
    CompareStringsZeroIff(a.host, b.host);
    CompareStringsZeroIff(a.db, b.db);
    var byHost := CompareStrings(a.host, b.host);
    if byHost != 0 then -byHost
    else
      var byDb := CompareStrings(a.db, b.db);
      if byDb != 0 then -byDb
      else -CompareStrings(a.user, b.user)
  }

  /** The facts about String.compareTo that the key order is built from, for three strings. */
  lemma StringOrder(x: string, y: string, z: string)
    ensures CompareStrings(x, y) == 0 <==> x == y
    ensures CompareStrings(y, z) == 0 <==> y == z
    ensures CompareStrings(x, z) == 0 <==> x == z
    ensures CompareStrings(x, y) == -CompareStrings(y, x)
    ensures CompareStrings(y, z) == -CompareStrings(z, y)
    ensures CompareStrings(x, z) == -CompareStrings(z, x)
    ensures CompareStrings(x, y) > 0 && CompareStrings(y, z) > 0 ==> CompareStrings(x, z) > 0
  {
    CompareStringsZeroIff(x, y);
    CompareStringsZeroIff(y, z);
    CompareStringsZeroIff(x, z);
    CompareStringsAntisymmetric(x, y);
    CompareStringsAntisymmetric(y, z);
    CompareStringsAntisymmetric(x, z);
    if CompareStrings(x, y) > 0 && CompareStrings(y, z) > 0 {
      CompareStringsTransitive(z, y, x);
    }
  }

  /** `compareTo` is zero exactly for equal host, db and user. */
  lemma CompareKeysZeroIff(a: EntryKey, b: EntryKey)
    ensures CompareKeys(a, b) == 0 <==> a == b
  {
    CompareStringsZeroIff(a.host, b.host);
    CompareStringsZeroIff(a.db, b.db);
    CompareStringsZeroIff(a.user, b.user);
  }

  /** Swapping the entries negates `compareTo`. */
  lemma CompareKeysAntisymmetric(a: EntryKey, b: EntryKey)
    ensures CompareKeys(a, b) == -CompareKeys(b, a)
  {
    StringOrder(a.host, b.host, b.host);
    StringOrder(a.db, b.db, b.db);
    StringOrder(a.user, b.user, b.user);
  }

  /** `compareTo` orders keys transitively. */
  lemma CompareKeysTransitive(a: EntryKey, b: EntryKey, c: EntryKey)
    requires CompareKeys(a, b) < 0 && CompareKeys(b, c) < 0
    ensures CompareKeys(a, c) < 0
  {
    StringOrder(a.host, b.host, c.host);
    StringOrder(a.db, b.db, c.db);
    StringOrder(a.user, b.user, c.user);
  }

  /** The argument of `compareTo` and `keyMatch`: a DbPrivEntry or an entry of another kind. */
  datatype PrivEntryRef = DbEntry(entry: DbPrivEntry) | OtherEntry
  {
    function Objects(): set<object>
    {
      if DbEntry? then {entry} else {}
    }
  }

  class DbPrivEntry {
    // The fields inherited from PrivEntry.
    var origHost: string
    var origUser: string
    var isDomain: bool
    var privSet: PrivBitSet
    var isClassNameWrote: bool
    // The fields of DbPrivEntry.
    var dbPattern: Option<MysqlPattern>
    var origDb: string
    var isAnyDb: bool

    /**
     * The no-argument constructor that deserialisation starts from. Its null
     * strings are "" here, and its null privilege set is an empty set.
     */
    constructor Empty()
      ensures origHost == "" && origUser == "" && !isDomain && origDb == ""
      ensures fresh(privSet) && privSet.bits == {}
      ensures dbPattern == None && !isAnyDb && !isClassNameWrote
    {
      origHost, origUser, isDomain := "", "", false;
      privSet := new PrivBitSet();
      isClassNameWrote := false;
      dbPattern, origDb, isAnyDb := None, "", false;
    }

    constructor (origHost: string, user: string, isDomain: bool, privSet: PrivBitSet, origDb: string)
      ensures this.origHost == origHost && this.origUser == user && this.isDomain == isDomain
      ensures this.privSet == privSet && this.origDb == origDb
      ensures dbPattern == None && !isAnyDb && !isClassNameWrote
    {
      this.origHost, this.origUser, this.isDomain := origHost, user, isDomain;
      this.privSet := privSet;
      isClassNameWrote := false;
      dbPattern, this.origDb, isAnyDb := None, origDb, false;
    }

    function Key(): (k: EntryKey)
      reads this
    {
      EntryKey(origHost, origDb, origUser)
    }

    /** `analyse()`: builds the database pattern and marks the entry for any database. */
    method Analyse()
      modifies this`dbPattern, this`isAnyDb
      ensures dbPattern == Some(CreateDbPatternMatcher(origDb))
      ensures isAnyDb == (old(isAnyDb) || origDb == AnyDb)
    {
      dbPattern := Some(CreateDbPatternMatcher(origDb));
      if origDb == AnyDb {
        isAnyDb := true;
      }
    }

    /**
     * `create(...)`: refuses global (NODE), resource (USAGE) and impersonate
     * privileges; otherwise a new, analysed entry that shares `privs`.
     */
    static method Create(host: string, db: string, user: string, isDomain: bool, privs: PrivBitSet)
      returns (r: Result<DbPrivEntry>)
      ensures r.Err? <==> NodePriv.Idx() in privs.bits || UsagePriv.Idx() in privs.bits
                          || ImpersonatePriv.Idx() in privs.bits
      ensures r.Err? ==> r.error == AnalysisException
      ensures r.Ok? ==> fresh(r.value)
      ensures r.Ok? ==> r.value.Key() == EntryKey(host, db, user) && r.value.isDomain == isDomain
      ensures r.Ok? ==> r.value.privSet == privs && !r.value.isClassNameWrote
      ensures r.Ok? ==> r.value.dbPattern == Some(CreateDbPatternMatcher(db))
      ensures r.Ok? ==> (r.value.isAnyDb <==> db == AnyDb)
    {
      var forbidden := privs.ContainsNodePriv();
      if !forbidden {
        forbidden := privs.ContainsResourcePriv();
      }
      if !forbidden {
        forbidden := privs.ContainsImpersonatePriv();
      }
      if forbidden {
        return Err(AnalysisException);
      }
      var entry := new DbPrivEntry(host, user, isDomain, privs, db);
      entry.Analyse();
      return Ok(entry);
    }

    /**
     * `compareTo(other)`: the first of host, db and user that differs decides,
     * in reverse string order; an entry of another kind cannot be compared.
     */
    function CompareTo(other: PrivEntryRef): (r: Result<int>)
      reads this, other.Objects()
      ensures other.OtherEntry? ==> r == Err(ClassCastException)
      ensures other.DbEntry? ==> r.Ok? && (r.value == 0 <==> Key() == other.entry.Key())
      ensures other.DbEntry? && origHost != other.entry.origHost ==>
                r.value == -CompareStrings(origHost, other.entry.origHost)
      ensures other.DbEntry? && origHost == other.entry.origHost && origDb != other.entry.origDb ==>
                r.value == -CompareStrings(origDb, other.entry.origDb)
      ensures other.DbEntry? && origHost == other.entry.origHost && origDb == other.entry.origDb ==>
                r.value == -CompareStrings(origUser, other.entry.origUser)
    {
      if other.OtherEntry? then Err(ClassCastException)
      else
        CompareKeysZeroIff(Key(), other.entry.Key());
        Ok(CompareKeys(Key(), other.entry.Key()))
    }

    /** `keyMatch(other)`: same host, user, db and domain flag; never for another kind of entry. */
    function KeyMatch(other: PrivEntryRef): (r: bool)
      reads this, other.Objects()
      ensures r <==> other.DbEntry? && Key() == other.entry.Key() && isDomain == other.entry.isDomain
    {
      other.DbEntry? && origHost == other.entry.origHost && origUser == other.entry.origUser
      && origDb == other.entry.origDb && isDomain == other.entry.isDomain
    }

    /** What PrivEntry.write emits for the superclass fields. */
    function PrivEntryFields(): (d: Datum)
      reads this, privSet
    {
      PrivEntryDatum(origHost, origUser, isDomain, privSet.bits)
    }

    /**
     * `write(out)`: the class name unless a subclass already wrote it, the
     * superclass fields, then the database; the flag is always cleared.
     */
    method Write(out: seq<Datum>) returns (written: seq<Datum>)
      modifies this`isClassNameWrote
      ensures written == out + (if old(isClassNameWrote) then [] else [StringDatum(ClassName)])
                        + [PrivEntryFields(), StringDatum(origDb)]
      ensures !isClassNameWrote
    {
      written := out;
      if !isClassNameWrote {
        written := written + [StringDatum(ClassName)];
        isClassNameWrote := true;
      }
      written := written + [PrivEntryFields()];
      written := written + [StringDatum(origDb)];
      isClassNameWrote := false;
    }

    /**
     * `readFields(in)`: the superclass fields, then the database. A failure
     * after the superclass fields leaves those fields already assigned.
     */
    method ReadFields(input: seq<Datum>) returns (rest: Result<seq<Datum>>)
      modifies this`origHost, this`origUser, this`isDomain, this`privSet, this`origDb
      ensures !(|input| > 0 && input[0].PrivEntryDatum?) ==>
                rest == Err(IOException) && unchanged(this)
      ensures |input| > 0 && input[0].PrivEntryDatum? ==>
                && origHost == input[0].host && origUser == input[0].user
                && isDomain == input[0].isDomain
                && fresh(privSet) && privSet.bits == input[0].privs
      ensures |input| > 0 && input[0].PrivEntryDatum? && !(|input| > 1 && input[1].StringDatum?) ==>
                rest == Err(IOException) && origDb == old(origDb)
      ensures |input| > 1 && input[0].PrivEntryDatum? && input[1].StringDatum? ==>
                rest == Ok(input[2..]) && origDb == input[1].text
    {
      if !(|input| > 0 && input[0].PrivEntryDatum?) {
        return Err(IOException);
      }
      var fields := input[0];
      origHost, origUser, isDomain := fields.host, fields.user, fields.isDomain;
      var privs := new PrivBitSet();
      privs.bits := fields.privs;
      privSet := privs;
      var db := ReadString(input[1..]);
      if db.Err? {
        return Err(db.error);
      }
      origDb := db.value.0;
      rest := Ok(db.value.1);
    }
  }

  /** An entry always matches its own key. */
  lemma KeyMatchReflexive(a: DbPrivEntry)
    ensures a.KeyMatch(DbEntry(a))
  {
  }

  /** `keyMatch` does not depend on which entry asks. */
  lemma KeyMatchSymmetric(a: DbPrivEntry, b: DbPrivEntry)
    ensures a.KeyMatch(DbEntry(b)) <==> b.KeyMatch(DbEntry(a))
  {
  }

  /** Entries whose keys match compare as equal. */
  lemma KeyMatchImpliesCompareZero(a: DbPrivEntry, b: DbPrivEntry)
    requires a.KeyMatch(DbEntry(b))
    ensures a.CompareTo(DbEntry(b)) == Ok(0)
  {
  }

  /** `compareTo` ignores the domain flag that `keyMatch` checks, so the converse fails. */
  lemma CompareZeroIgnoresDomain(a: DbPrivEntry, b: DbPrivEntry)
    requires a.Key() == b.Key() && a.isDomain != b.isDomain
    ensures a.CompareTo(DbEntry(b)) == Ok(0) && !a.KeyMatch(DbEntry(b))
  {
  }

  /** An entry compares equal to itself. */
  lemma CompareToReflexive(a: DbPrivEntry)
    ensures a.CompareTo(DbEntry(a)) == Ok(0)
  {
  }

  /** Comparing the other way round gives the negated result. */
  lemma CompareToAntisymmetric(a: DbPrivEntry, b: DbPrivEntry)
    ensures a.CompareTo(DbEntry(b)).Ok? && b.CompareTo(DbEntry(a)).Ok?
    ensures a.CompareTo(DbEntry(b)).value == -b.CompareTo(DbEntry(a)).value
  {
    CompareKeysAntisymmetric(a.Key(), b.Key());
  }

  /** `compareTo` orders entries transitively. */
  lemma CompareToTransitive(a: DbPrivEntry, b: DbPrivEntry, c: DbPrivEntry)
    requires a.CompareTo(DbEntry(b)).value < 0 && b.CompareTo(DbEntry(c)).value < 0
    ensures a.CompareTo(DbEntry(c)).value < 0
  {
    CompareKeysTransitive(a.Key(), b.Key(), c.Key());
  }

  /**
   * Reading back what `write` emitted, after the class name that the caller
   * consumes, restores the key, the domain flag and the privileges.
   */
  method WriteThenReadFields(source: DbPrivEntry, target: DbPrivEntry) returns (rest: Result<seq<Datum>>)
    requires !source.isClassNameWrote
    modifies source`isClassNameWrote, target
    ensures rest == Ok([])
    ensures target.Key() == source.Key() && target.isDomain == source.isDomain
    ensures target.privSet.bits == source.privSet.bits
  {
    var written := source.Write([]);
    assert written[0] == StringDatum(ClassName);
    var fields := written[1..];
    assert fields == [source.PrivEntryFields(), StringDatum(source.origDb)];
    rest := target.ReadFields(fields);
    assert fields[2..] == [];
  }
}
