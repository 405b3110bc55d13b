/**
  The two halves of bootstrap rewriting together: the document patches of Kubeadm as the text patches
  that Heredoc applies to bodies (controllers/sshmachine.py). The YAML engine is a pair of functions.
 */
module Bootstrap {
  import opened Wrappers
  import opened Texts
  import Heredoc
  import Kubeadm

  /** The documents of a text, without empty ones; `None` for text that is no YAML. */
  type Load = string -> Option<seq<Kubeadm.Yaml>>

  type Dump = seq<Kubeadm.Yaml> -> string

  predicate NoNulls(docs: seq<Kubeadm.Yaml>) {
    forall doc | doc in docs :: !doc.Null?
  }

  /**
    What the code relies on in the engine: loading drops empty documents, and what is dumped, without
    its trailing newlines, loads as the same documents.
   */
  ghost predicate Engine(load: Load, dump: Dump) {
    && (forall text :: load(text).Some? ==> NoNulls(load(text).value))
    && (forall docs | NoNulls(docs) :: load(DropNewlines(dump(docs))) == Some(docs))
  }

  /** `_patch_provider_id_in_kubeadm_yaml` and `_patch_external_etcd_in_kubeadm_yaml` */
  function PatchText(load: Load, dump: Dump, patch: Kubeadm.Patch, text: string): Option<Heredoc.Patched> {
    var docs := load(text);
    if docs.None? || docs.value == [] then Some(Heredoc.Patched(text, false, false))
    else if !Kubeadm.Accepts(patch, docs.value) then None
    else
      var p := Kubeadm.PatchAll(patch, docs.value);
      Some(Heredoc.Patched(if p.changed then DropNewlines(dump(p.docs)) else text, p.saw, p.changed))
  }

  function TextPatch(load: Load, dump: Dump, patch: Kubeadm.Patch): Heredoc.Patch {
    text => PatchText(load, dump, patch, text)
  }

  lemma PatchedAreDocuments(patch: Kubeadm.Patch, docs: seq<Kubeadm.Yaml>)
    requires Kubeadm.Accepts(patch, docs) && NoNulls(docs)
    ensures NoNulls(Kubeadm.PatchAll(patch, docs).docs)
  {
    var docs' := Kubeadm.PatchAll(patch, docs).docs;
    forall i | 0 <= i < |docs| ensures !docs'[i].Null? {
      assert Kubeadm.PatchDoc(patch, docs[i]).Ok? && docs[i] in docs;
      Kubeadm.StaysDocument(patch, docs[i]);
    }
  }

  /** The documents of a text that was patched: wired, and settled. */
  lemma PatchedTextIsWired(load: Load, dump: Dump, patch: Kubeadm.Patch, text: string)
    requires Engine(load, dump)
    requires PatchText(load, dump, patch, text).Some? && load(text).Some? && load(text).value != []
    ensures var p := PatchText(load, dump, patch, text).value;
            && (p.changed ==> !EndsWithNewline(p.text)) && (!p.changed ==> p.text == text)
            && load(p.text) == Some(Kubeadm.PatchAll(patch, load(text).value).docs)
            && (forall i | 0 <= i < |load(p.text).value| :: Kubeadm.Wired(patch, load(p.text).value[i]) && Kubeadm.Settled(patch, load(p.text).value[i]))
  {
    var docs := load(text).value;
    var p := Kubeadm.PatchAll(patch, docs);
    PatchedAreDocuments(patch, docs);
    forall i | 0 <= i < |docs|
      ensures Kubeadm.Wired(patch, p.docs[i]) && Kubeadm.Settled(patch, p.docs[i]) && (!p.changed ==> p.docs[i] == docs[i])
    {
      assert Kubeadm.PatchDoc(patch, docs[i]).Ok?;
      Kubeadm.PatchDocMeets(patch, docs[i]);
    }
    if !p.changed { assert p.docs == docs; }
  }

  /** The text is not a document that is seen and left alone although it ends in a newline, which the rewrite would drop. */
  predicate KeepsEnd(patch: Heredoc.Patch, text: string) {
    EndsWithNewline(text) ==> patch(text).None? || patch(text).value.changed || !patch(text).value.saw
  }

  /** A patch leaves nothing to do in its own output, and changes nothing where it saw nothing. */
  lemma TextPatchSettles(load: Load, dump: Dump, patch: Kubeadm.Patch, text: string)
    requires Engine(load, dump) && KeepsEnd(TextPatch(load, dump, patch), text)
    ensures Heredoc.SettledOn(TextPatch(load, dump, patch), text) && Heredoc.Honest(TextPatch(load, dump, patch), text)
  {
    var docs := load(text);
    if docs.Some? && docs.value != [] && Kubeadm.Accepts(patch, docs.value) {
      PatchedTextIsWired(load, dump, patch, text);
      var p := PatchText(load, dump, patch, text).value;
      SawWhatChanged(patch, docs.value);
      if p.saw {
        JoinLines(p.text);
        assert !EndsWithNewline(p.text) && Join(Lines(p.text)) == p.text;
        Kubeadm.AllSettled(patch, load(p.text).value);
      }
    }
  }

  lemma SawWhatChanged(patch: Kubeadm.Patch, docs: seq<Kubeadm.Yaml>)
    requires Kubeadm.Accepts(patch, docs)
    ensures Kubeadm.PatchAll(patch, docs).changed ==> Kubeadm.PatchAll(patch, docs).saw
  {
    if Kubeadm.PatchAll(patch, docs).changed {
      var i :| 0 <= i < |docs| && Kubeadm.PatchDoc(patch, docs[i]).value.changed;
      Kubeadm.ChangedWasSeen(patch, docs[i]);
    }
  }

  /** No kubeadm heredoc of the script ends in an empty line and is left alone. */
  predicate AllKeepEnd(starts: Heredoc.Starts, patch: Heredoc.Patch, segments: seq<Heredoc.Segment>) {
    forall i | 0 <= i < |segments| && Heredoc.Concerned(starts, segments[i]) :: KeepsEnd(patch, Join(segments[i].body))
  }

  /**
    Injecting twice: if no rewritten document contains the terminator of its heredoc, the second
    injection into the resulting script is accepted and reports no change.
   */
  lemma InjectTwice(load: Load, dump: Dump, patch: Kubeadm.Patch, lines: seq<string>)
    requires Engine(load, dump)
    requires var segments := Heredoc.Split(Heredoc.ParseStart, lines);
             var text := TextPatch(load, dump, patch);
             && AllKeepEnd(Heredoc.ParseStart, text, segments)
             && (forall i | 0 <= i < |segments| :: Heredoc.Closed(Heredoc.ParseStart, Heredoc.RewriteAll(Heredoc.ParseStart, text, segments)[i]))
             && !Heredoc.Remaining(Heredoc.ParseStart, text, lines).rejected
    ensures var text := TextPatch(load, dump, patch);
            var once := Heredoc.Remaining(Heredoc.ParseStart, text, lines).lines;
            var again := Heredoc.Remaining(Heredoc.ParseStart, text, once);
            !again.rejected && !again.changed
  {
    var starts := Heredoc.ParseStart;
    var segments := Heredoc.Split(starts, lines);
    var text := TextPatch(load, dump, patch);
    forall i | 0 <= i < |segments| && Heredoc.Concerned(starts, segments[i])
      ensures Heredoc.SettledOn(text, Join(segments[i].body)) && Heredoc.Honest(text, Join(segments[i].body))
    {
      TextPatchSettles(load, dump, patch, Join(segments[i].body));
    }
    Heredoc.RewriteTwice(starts, text, lines);
  }
}
