/** Reorg-aware tables: rows keep their data when a block is orphaned and only lose the
    `is_canonical` flag, and an upsert revives a row in full. `Canonical` is what readers see. */
module Tables {
  import opened Chain

  datatype Row<+T> = Row(block: nat, hash: Hash, data: T, canonical: bool)
  type Table<K(==), +T> = map<K, Row<T>>

  /** A canonical row without its flag. */
  datatype Fact<+T> = Fact(block: nat, hash: Hash, data: T)
  type Facts<K(==), +T> = map<K, Fact<T>>

  function Canonical<K, T>(t: Table<K, T>): Facts<K, T> {
    map k | k in t && t[k].canonical :: Fact(t[k].block, t[k].hash, t[k].data)
  }

  /** UPDATE ... SET is_canonical=false WHERE is_canonical AND block_number >= from. */
  function OrphanFrom<K, T>(t: Table<K, T>, from: nat): Table<K, T> {
    map k | k in t :: if t[k].canonical && t[k].block >= from then t[k].(canonical := false) else t[k]
  }

  /** UPDATE ... SET is_canonical=false WHERE is_canonical AND block_number=n AND block_hash<>h. */
  function OrphanRivals<K, T>(t: Table<K, T>, n: nat, h: Hash): Table<K, T> {
    map k | k in t :: if t[k].canonical && t[k].block == n && t[k].hash != h
                      then t[k].(canonical := false) else t[k]
  }

  /** UPDATE ... SET is_canonical=false WHERE is_canonical. */
  function OrphanAll<K, T>(t: Table<K, T>): Table<K, T> {
    map k | k in t :: t[k].(canonical := false)
  }

  /** INSERT ... ON CONFLICT DO UPDATE SET every column, is_canonical=true. */
  function Upsert<K, T>(t: Table<K, T>, k: K, f: Fact<T>): Table<K, T> {
    t[k := Row(f.block, f.hash, f.data, true)]
  }

  /** The facts of blocks below a height. */
  function Below<K, T>(f: Facts<K, T>, from: nat): Facts<K, T> {
    map k | k in f && f[k].block < from :: f[k]
  }

  /** The facts that a replacement (n, h) leaves in place. */
  function WithoutRivals<K, T>(f: Facts<K, T>, n: nat, h: Hash): Facts<K, T> {
    map k | k in f && !(f[k].block == n && f[k].hash != h) :: f[k]
  }

  lemma {:induction false} CanonicalUpsert<K, T>(t: Table<K, T>, k: K, f: Fact<T>)
    ensures Canonical(Upsert(t, k, f)) == Canonical(t)[k := f]
  {
  }

  lemma {:induction false} CanonicalOrphanFrom<K, T>(t: Table<K, T>, from: nat)
    ensures Canonical(OrphanFrom(t, from)) == Below(Canonical(t), from)
  {
  }

  lemma {:induction false} CanonicalOrphanRivals<K, T>(t: Table<K, T>, n: nat, h: Hash)
    ensures Canonical(OrphanRivals(t, n, h)) == WithoutRivals(Canonical(t), n, h)
  {
  }

  lemma {:induction false} CanonicalOrphanAll<K, T>(t: Table<K, T>)
    ensures Canonical(OrphanAll(t)) == map[]
  {
  }

  /** A fact at or above `from` that replaces nothing below `from` is invisible below `from`. */
  lemma {:induction false} BelowUpdate<K, T>(f: Facts<K, T>, k: K, fact: Fact<T>, from: nat)
    requires fact.block >= from
    requires k in f ==> f[k].block >= from
    ensures Below(f[k := fact], from) == Below(f, from)
  {
  }
}
