/** The record file: written by put and commit, read cyclically by getNextValue, and delivered by the data reader. */
module RecordStream {
  import opened Modular

  datatype Mode = READ | NEW

  type Record = (string, string) // key, value

  function Zip(keys: seq<string>, values: seq<string>): seq<Record>
    requires |keys| == |values|
  {
    seq(|keys|, i requires 0 <= i < |keys| => (keys[i], values[i]))
  }

  /** Where reading goes on after record pos: past the end it wraps to the record after the header. */
  function Advance(pos: nat, size: nat): nat {
    if pos + 1 == size then 1 else pos + 1
  }

  /** Number of data records; record 0 is the header. */
  function DataCount(file: seq<Record>): int {
    |file| - 1
  }

  /** The k-th data value of the endless cyclic stream. */
  function Nth(file: seq<Record>, k: nat): string
    requires DataCount(file) >= 1
  {
    file[1 + k % DataCount(file)].1
  }

  lemma AdvanceCycles(k: nat, size: nat)
    requires size >= 2
    ensures Advance(1 + k % (size - 1), size) == 1 + (k + 1) % (size - 1)
  {
    var n := size - 1;
    if k % n + 1 == n {
      DivModUnique(k + 1, n, k / n + 1, 0);
    } else {
      DivModUnique(k + 1, n, k / n, k % n + 1);
    }
  }

  class Sdf {
    const mode: Mode
    var keys: seq<string>
    var values: seq<string>
    var file: seq<Record>
    var pos: nat

    ghost predicate Valid()
      reads this
    {
      |keys| == |values| && pos <= |file|
    }

    /** Everything put so far, committed or not, in the order of the puts. */
    ghost function AllPut(): seq<Record>
      requires Valid()
      reads this
    {
      file + Zip(keys, values)
    }

    constructor ForWriting()
      ensures Valid() && mode == NEW && AllPut() == []
    {
      mode := NEW;
      keys, values, file, pos := [], [], [], 0;
    }

    constructor ForReading(file: seq<Record>)
      ensures Valid() && mode == READ && this.file == file && pos == 0
    {
      mode := READ;
      keys, values, this.file, pos := [], [], file, 0;
    }

    method Put(key: string, value: string)
      requires Valid() && mode == NEW
      modifies `keys, `values
      ensures Valid() && AllPut() == old(AllPut()) + [(key, value)]
    {
      keys, values := keys + [key], values + [value];
      assert Zip(keys, values) == Zip(old(keys), old(values)) + [(key, value)];
    }

    method Commit()
      requires Valid() && mode == NEW
      modifies this
      ensures Valid() && file == AllPut() == old(AllPut()) && pos == old(pos)
    {
      ghost var before := file;
      var archive := file;
      for i := 0 to |keys|
        invariant file == before && keys == old(keys) && values == old(values) && pos == old(pos)
        invariant archive == before + Zip(keys, values)[..i]
      {
        archive := archive + [(keys[i], values[i])];
        assert Zip(keys, values)[..i + 1] == Zip(keys, values)[..i] + [(keys[i], values[i])];
      }
      assert Zip(keys, values)[..|keys|] == Zip(keys, values);
      file := archive;
      keys, values := [], [];
      assert Zip(keys, values) == [];
    }

    /** At the end of the file the stream restarts, and the header is read and thrown away. */
    method GetNextValue() returns (value: string)
      requires Valid() && mode == READ && pos < |file|
      modifies `pos
      ensures Valid() && value == file[old(pos)].1 && pos == Advance(old(pos), |file|)
    {
      value := file[pos].1;
      pos := pos + 1;
      if pos == |file| {
        pos := 0;
        pos := pos + 1;
      }
    }
  }

  class DataReader<Datum> {
    const db: Sdf
    const deserialize: string -> Datum
    var dataQueue: seq<Datum>
    ghost var delivered: nat

    ghost predicate Valid()
      reads this, db
    {
      && db.Valid() && db.mode == READ && DataCount(db.file) >= 1
      && db.pos == 1 + (delivered + |dataQueue|) % DataCount(db.file)
      && (dataQueue == [] || dataQueue == [Stream(delivered)])
    }

    ghost function Stream(k: nat): Datum
      requires DataCount(db.file) >= 1
      reads this, db
    {
      deserialize(Nth(db.file, k))
    }

    constructor (file: seq<Record>, deserialize: string -> Datum)
      requires DataCount(file) >= 1
      ensures Valid() && fresh(db) && db.file == file && this.deserialize == deserialize && delivered == 0 &&
              dataQueue == []
    {
      var source := new Sdf.ForReading(file);
      var header := source.GetNextValue();
      db := source;
      this.deserialize := deserialize;
      dataQueue, delivered := [], 0;
    }

    method GetNextData() returns (datum: Datum)
      requires Valid()
      modifies this, db`pos
      ensures Valid() && db.file == old(db.file)
      ensures datum == old(Stream(delivered)) && delivered == old(delivered) + 1 && dataQueue == []
    {
      AdvanceCycles(delivered, |db.file|);
      if dataQueue == [] {
        var value := db.GetNextValue();
        datum := deserialize(value);
      } else {
        datum := dataQueue[0];
        dataQueue := dataQueue[1..];
      }
      delivered := delivered + 1;
    }

    method PeekNextData() returns (datum: Datum)
      requires Valid()
      modifies this, db`pos
      ensures Valid() && db.file == old(db.file)
      ensures datum == old(Stream(delivered)) && delivered == old(delivered) && dataQueue == [datum]
    {
      AdvanceCycles(delivered, |db.file|);
      if dataQueue == [] {
        var value := db.GetNextValue();
        datum := deserialize(value);
        dataQueue := [datum];
      } else {
        datum := dataQueue[0];
      }
    }

    /** Fills an element of the input pool; the source assumes that nothing was peeked. */
    method FillNextData() returns (data: Datum)
      requires Valid() && dataQueue == []
      modifies this, db`pos
      ensures Valid() && db.file == old(db.file)
      ensures data == old(Stream(delivered)) && delivered == old(delivered) + 1 && dataQueue == []
    {
      AdvanceCycles(delivered, |db.file|);
      var value := db.GetNextValue();
      data := deserialize(value);
      delivered := delivered + 1;
    }
  }

  /**
   * The header is committed at once, and the data whenever a batch is full and at the end; the file holds them in the
   * order of the puts.
   */
  method WriteAll(header: Record, data: seq<Record>, batch: nat) returns (writer: Sdf)
    requires batch > 0
    ensures fresh(writer) && writer.file == [header] + data
  {
    writer := new Sdf.ForWriting();
    writer.Put(header.0, header.1);
    writer.Commit();
    var count := 0;
    for i := 0 to |data|
      invariant count == i && writer.Valid() && writer.mode == NEW && fresh(writer)
      invariant writer.AllPut() == [header] + data[..i] && (count % batch == 0 ==> writer.file == writer.AllPut())
    {
      writer.Put(data[i].0, data[i].1);
      count := count + 1;
      if count % batch == 0 {
        writer.Commit();
      }
    }
    if count % batch != 0 {
      writer.Commit();
    }
  }

  /** What was put is what a fresh reader delivers: datum k is put number 1 + k mod n. */
  method WriteThenRead(header: Record, data: seq<Record>, batch: nat, count: nat) returns (read: seq<string>)
    requires data != [] && batch > 0
    ensures |read| == count && forall k :: 0 <= k < count ==> read[k] == data[k % |data|].1
  {
    var writer := WriteAll(header, data, batch);
    var reader := new DataReader(writer.file, (s: string) => s);
    read := [];
    for k := 0 to count
      invariant reader.Valid() && fresh(reader) && fresh(reader.db) && reader.db.file == [header] + data
      invariant reader.delivered == k == |read| && forall j :: 0 <= j < k ==> read[j] == data[j % |data|].1
      invariant reader.deserialize == ((s: string) => s)
    {
      var value := reader.GetNextData();
      assert value == reader.db.file[1 + k % |data|].1;
      read := read + [value];
    }
  }
}
