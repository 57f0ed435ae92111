/** Start-up rotation of the CSV log over an abstract file system (a map from
    file name to contents).  Two earlier generations are kept, named by
    appending "save1" and "save2" to the log's name with no separator. */
module LogRotation {
  import opened OvenValues

  type Files = map<string, seq<LogLine>>

  /** The log file the script writes. */
  const Csvfilename: string := "/home/pi/WGOTdata.csv"

  function Save1(base: string): (name: string) { base + "save1" }
  function Save2(base: string): (name: string) { base + "save2" }

  /** The three generation names are pairwise different, whatever the base. */
  lemma GenerationNamesDistinct(base: string)
    ensures base != Save1(base) && base != Save2(base) && Save1(base) != Save2(base)
  {
    assert |Save1(base)| == |base| + 5;
    assert Save1(base)[|base| + 4] == '1' && Save2(base)[|base| + 4] == '2';
  }

  /** Deleting a file; a missing file is silently skipped. */
  function Remove(fs: Files, name: string): (r: Files)
    ensures name !in r
    ensures forall n :: n != name ==> (n in r <==> n in fs) && (n in r ==> r[n] == fs[n])
  {
    fs - {name}
  }

  /** Renaming a file, replacing any file of the new name; a missing source
      is silently skipped. */
  function Rename(fs: Files, from: string, to: string): (r: Files)
    requires from != to
    ensures from in fs ==> from !in r && to in r && r[to] == fs[from]
    ensures from !in fs ==> r == fs
    ensures forall n :: n != from && n != to ==> (n in r <==> n in fs) && (n in r ==> r[n] == fs[n])
  {
    if from in fs then (fs - {from})[to := fs[from]] else fs
  }

  /** Remove save2, rename save1 to save2, rename the log to save1: each
      generation moves one place back, the oldest is lost, and the log's own
      name is left free. */
  function Rotate(fs: Files, base: string): (r: Files)
    ensures base !in r
    ensures Save1(base) in r <==> base in fs
    ensures base in fs ==> r[Save1(base)] == fs[base]
    ensures Save2(base) in r <==> Save1(base) in fs
    ensures Save1(base) in fs ==> r[Save2(base)] == fs[Save1(base)]
    ensures forall n :: n != base && n != Save1(base) && n != Save2(base) ==>
              (n in r <==> n in fs) && (n in r ==> r[n] == fs[n])
  {
    GenerationNamesDistinct(base);
    Rename(Rename(Remove(fs, Save2(base)), Save1(base), Save2(base)), base, Save1(base))
  }

  /** Rotation followed by opening a fresh log that receives the seed record:
      the old log becomes save1, the old save1 becomes save2, the old save2 is
      gone, and no other file is touched. */
  function OpenLog(fs: Files, base: string, seed: LogLine): (r: Files)
    ensures base in r && r[base] == [seed]
    ensures Save1(base) in r <==> base in fs
    ensures base in fs ==> r[Save1(base)] == fs[base]
    ensures Save2(base) in r <==> Save1(base) in fs
    ensures Save1(base) in fs ==> r[Save2(base)] == fs[Save1(base)]
    ensures forall n :: n != base && n != Save1(base) && n != Save2(base) ==>
              (n in r <==> n in fs) && (n in r ==> r[n] == fs[n])
  {
    GenerationNamesDistinct(base);
    Rotate(fs, base)[base := [seed]]
  }

  /** Two start-ups in a row, when a log already exists: the log from
      before both ends up as save2, and the first start-up's fresh log
      (just its seed record) as save1. */
  lemma {:induction false} TwoStartsKeepLogAsSave2(fs: Files, base: string, seed1: LogLine, seed2: LogLine)
    requires base in fs
    ensures Save2(base) in OpenLog(OpenLog(fs, base, seed1), base, seed2)
    ensures OpenLog(OpenLog(fs, base, seed1), base, seed2)[Save2(base)] == fs[base]
    ensures OpenLog(OpenLog(fs, base, seed1), base, seed2)[Save1(base)] == [seed1]
  {
    var once := OpenLog(fs, base, seed1);
    assert Save1(base) in once && once[Save1(base)] == fs[base];
  }
}
