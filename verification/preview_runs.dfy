/** What a preview shows is what a commit imports, however much later and whatever happens in between. */
module PreviewRuns {
  import opened Base
  import opened World
  import opened System
  import opened WorldRuns
  import Importer
  import Imports
  import WorldSafety
  import Zip

  lemma SameImporter(w: World, s: Step, w': World)
    requires Possible(w, s) && w' == After(w, s)
    ensures w'.limits == w.limits && w'.decode == w.decode
  {
  }

  lemma {:induction false} SameImporterRun(w: World, steps: seq<Step>, w': World)
    requires Runs(w, steps, w')
    ensures w'.limits == w.limits && w'.decode == w.decode
    decreases |steps|
  {
    if steps != [] {
      SameImporter(w, steps[0], After(w, steps[0]));
      SameImporterRun(After(w, steps[0]), steps[1..], w');
    }
  }

  lemma SoundIsSafe(w: Sound)
    ensures WorldSafety.Inv(w)
  {
  }

  lemma {:induction false} ReadsWhatWasSaved(w: World, w': World, p: Id, pairs: seq<Importer.TestPair>, others: seq<Importer.TestPair>)
    requires Kept(w, w', p) && w'.limits == w.limits && w'.decode == w.decode
    requires Reads(w, w.disk.arts[w.rows.previews[p].artifact].digest, pairs) && ReadsArchive(w', p, others)
    ensures others == pairs
  {
    Zip.OnlyReading(w, w.disk.arts[w.rows.previews[p].artifact].digest, pairs);
    assert Reads(w, w.disk.arts[w.rows.previews[p].artifact].digest, others);
  }

  /**
    After PreviewZIP has reported some pairs, a commit of that preview at any later moment at which it is still
    allowed reads exactly those pairs from disk.
  */
  lemma {:induction false} PreviewIsWhatIsImported(
    w0: World, w: Sound, p: Id, owner: Id, rev: Id, source: Bytes, pairs: seq<Importer.TestPair>,
    steps: seq<Step>, w': World, others: seq<Importer.TestPair>)
    requires Zip.Previewed(w0, w, p, owner, rev, source) && Reads(w, source, pairs)
    requires Runs(w, steps, w') && w'.disk.clock <= w.rows.previews[p].expires && ReadsArchive(w', p, others)
    ensures others == pairs
  {
    hide Imports.Good;
    SoundIsSafe(w);
    PreviewOutlivesItsExpiry(w, steps, w', p);
    SameImporterRun(w, steps, w');
    ReadsWhatWasSaved(w, w', p, pairs, others);
  }
}
