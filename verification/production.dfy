/**
 * `ProductionAgent.run` (agents/production.py): for every image-prompt entry
 * that has a `prompt_text`, reuse a cached image under `assets/images` or
 * generate one, and record the path used in the entry's `image_path`.
 */
module Production {
  import opened Wrappers
  import opened Text
  import opened Json
  import opened Paths
  import opened CacheGuard
  import opened RemoteApi
  import opened Episode

  /** `assets/images` under the episode root. */
  function ImageDir(root: string): string {
    Join(Join(root, "assets"), "images")
  }

  /** An entry the loop works on: a dict with a `prompt_text` key. */
  predicate Processed(entry: Json) {
    entry.Obj? && "prompt_text" in entry.fields
  }

  /** `f"{v}"`: a string as it is, anything else through `str()`. */
  function IdText(v: Json, show: Json -> string): (r: string)
    ensures v.Str? ==> r == v.s
  {
    if v.Str? then v.s else show(v)
  }

  /** `segment.get('slot_id', str(i))`, formatted. */
  function SlotId(entry: Json, i: nat, show: Json -> string): (r: string)
    requires entry.Obj?
    ensures "slot_id" in entry.fields ==> r == IdText(entry.fields["slot_id"], show)
    ensures "slot_id" !in entry.fields ==> r == NatToString(i) && DigitsValue(r) == i
  {
    IdText(Get(entry, "slot_id", Str(NatToString(i))).value, show)
  }

  /** `assets/images/<id>.png`: where the `i`-th entry's image is generated. */
  function Target(root: string, entry: Json, i: nat, show: Json -> string): string
    requires entry.Obj?
  {
    Join(ImageDir(root), SlotId(entry, i, show) + ".png")
  }

  /** The cache base of the `i`-th entry: its target without the extension. */
  function SlotBase(root: string, entry: Json, i: nat, show: Json -> string): string
    requires entry.Obj?
  {
    Splitext(Target(root, entry, i, show)).0
  }

  /** A path the `i`-th entry's work may remove: a cache candidate or the generation target. */
  predicate SlotPath(p: string, root: string, entry: Json, i: nat, show: Json -> string)
    requires entry.Obj?
  {
    p == Target(root, entry, i, show) || Candidate(p, SlotBase(root, entry, i, show), ImageExts)
  }

  /**
   * One iteration of the loop on an entry with a `prompt_text`: the guard runs
   * on the entry's base; a hit is used as is, a miss calls the generator once.
   */
  function ProcessSlot(entry: Json, i: nat, root: string, mode: Mode, svc: Services, files: Files): (r: SlotResult)
    requires Processed(entry)
    ensures r.SlotRaised? <==>
      && Guard(files, svc.locked, SlotBase(root, entry, i, svc.show), ImageExts).hit.None?
      && mode == Mock && !Sliceable(entry.fields["prompt_text"])
    ensures r.SlotDone? ==> Annotated(entry, r.entry, "image_path")
    ensures r.SlotDone? ==>
      (r.generated <==> !exists k: nat :: FirstValid(files, SlotBase(root, entry, i, svc.show), ImageExts, k))
    ensures r.SlotDone? ==> forall k: nat :: FirstValid(files, SlotBase(root, entry, i, svc.show), ImageExts, k) ==>
      r.entry.fields["image_path"] == Str(SlotBase(root, entry, i, svc.show) + ImageExts[k])
    ensures forall p :: p in files && p !in r.files ==> SlotPath(p, root, entry, i, svc.show) && files[p] <= MinValidSize
    ensures forall p :: p in r.files && (p !in files || r.files[p] != files[p]) ==>
      r.SlotDone? && r.generated && r.entry.fields["image_path"] == Str(p)
    ensures r.SlotDone? && !r.generated ==>
      r.files == Guard(files, svc.locked, SlotBase(root, entry, i, svc.show), ImageExts).files
    ensures r.SlotDone? && r.generated ==>
      var img := Target(root, entry, i, svc.show);
      var prompt := entry.fields["prompt_text"];
      var g := GenerateImage(mode, prompt, img, svc.image(prompt, img), svc.guess,
                             Guard(files, svc.locked, SlotBase(root, entry, i, svc.show), ImageExts).files, svc.locked);
      && g.Some?
      && r.entry.fields["image_path"] == Str(g.value.path)
      && r.files == g.value.files
  {
    var img := Target(root, entry, i, svc.show);
    AfterScan(entry, img, Guard(files, svc.locked, Splitext(img).0, ImageExts), mode, svc)
  }

  /** What follows the scan: use the hit, or generate at the target. */
  function AfterScan(entry: Json, img: string, scan: Scan, mode: Mode, svc: Services): (r: SlotResult)
    requires Processed(entry)
    ensures r.SlotRaised? <==> scan.hit.None? && mode == Mock && !Sliceable(entry.fields["prompt_text"])
    ensures r.SlotDone? ==> Annotated(entry, r.entry, "image_path") && (r.generated <==> scan.hit.None?)
    ensures r.SlotDone? && scan.hit.Some? ==> r.entry.fields["image_path"] == Str(scan.hit.value) && r.files == scan.files
    ensures r.SlotRaised? ==> r.files == scan.files
    ensures forall p :: p in scan.files && p !in r.files ==> p == img && scan.files[p] == 0
    ensures forall p :: p in r.files && (p !in scan.files || r.files[p] != scan.files[p]) ==>
      r.SlotDone? && r.generated && r.entry.fields["image_path"] == Str(p)
    ensures r.SlotDone? && scan.hit.None? ==>
      var prompt := entry.fields["prompt_text"];
      var g := GenerateImage(mode, prompt, img, svc.image(prompt, img), svc.guess, scan.files, svc.locked);
      && g.Some?
      && r.entry == Put(entry, "image_path", Str(g.value.path))
      && r.files == g.value.files
  {
    match scan.hit
    case Some(h) => SlotDone(Put(entry, "image_path", Str(h)), scan.files, false)
    case None =>
      var prompt := entry.fields["prompt_text"];
      match GenerateImage(mode, prompt, img, svc.image(prompt, img), svc.guess, scan.files, svc.locked)
      case None => SlotRaised(scan.files)
      case Some(g) => SlotDone(Put(entry, "image_path", Str(g.path)), g.files, true)
  }

  /** One iteration of the loop: a non-dict entry raises on `.get`; one without `prompt_text` is left alone. */
  function ProduceSlot(entry: Json, i: nat, root: string, mode: Mode, svc: Services, files: Files): (r: SlotResult)
    ensures !entry.Obj? ==> r == SlotRaised(files)
    ensures entry.Obj? && !Processed(entry) ==> r == SlotDone(entry, files, false)
    ensures Processed(entry) ==> r == ProcessSlot(entry, i, root, mode, svc, files)
  {
    if !entry.Obj? then SlotRaised(files)
    else if "prompt_text" !in entry.fields then SlotDone(entry, files, false)
    else ProcessSlot(entry, i, root, mode, svc, files)
  }

  /** The number of entries the loop works on. */
  function CountProcessed(items: seq<Json>): (n: nat)
    ensures n <= |items|
  {
    if items == [] then 0 else (if Processed(items[0]) then 1 else 0) + CountProcessed(items[1..])
  }

  /** `p` belongs to the work of some processed entry of `items`, numbered from `offset`. */
  predicate MayTouch(p: string, items: seq<Json>, offset: nat, root: string, show: Json -> string) {
    exists k :: 0 <= k < |items| && Processed(items[k]) && SlotPath(p, root, items[k], offset + k, show)
  }

  /**
   * The `for i, segment in enumerate(...)` loop over `items`, whose first
   * element has index `offset`.  It completes only if every entry is a dict;
   * unprocessed entries are returned as they were and processed ones gain
   * `image_path`; the generator runs at most once per processed entry; a file
   * disappears only as the candidate or target of a processed entry; a file
   * that appears or changes size is the recorded image of some entry.  A
   * file over 1024 bytes is never removed unless the loop itself wrote it, so
   * a reused image stays.  An exception stops the loop but undoes nothing:
   * the entries before it keep their paths and the files generated for them
   * stay.
   */
  function ProduceAll(items: seq<Json>, offset: nat, root: string, mode: Mode, svc: Services, files: Files): (r: Slots)
    ensures |r.entries| == |items|
    ensures forall k :: 0 <= k < |items| ==>
      r.entries[k] == items[k] || (Processed(items[k]) && Annotated(items[k], r.entries[k], "image_path"))
    ensures r.Completed? ==> forall k :: 0 <= k < |items| ==> items[k].Obj?
    ensures r.Completed? ==> forall k :: 0 <= k < |items| && !Processed(items[k]) ==> r.entries[k] == items[k]
    ensures r.Completed? ==> forall k :: 0 <= k < |items| && Processed(items[k]) ==> Annotated(items[k], r.entries[k], "image_path")
    ensures r.Completed? ==> r.calls <= CountProcessed(items)
    ensures forall p :: p in files && p !in r.files ==> MayTouch(p, items, offset, root, svc.show)
    ensures forall p :: p in files && p !in r.files ==> files[p] <= MinValidSize || p in r.written
    ensures forall p :: p in r.files && (p !in files || r.files[p] != files[p]) ==> p in r.written
    ensures forall p :: p in r.written ==>
      exists k :: 0 <= k < |items| && Processed(items[k]) && RecordsPath(r.entries[k], "image_path", p)
    ensures forall p :: p in r.files && (p !in files || r.files[p] != files[p]) ==>
      exists k :: 0 <= k < |items| && Processed(items[k]) && RecordsPath(r.entries[k], "image_path", p)
    decreases |items|
  {
    if items == [] then Completed([], files, 0, {})
    else
      match ProduceSlot(items[0], offset, root, mode, svc, files)
      case SlotRaised(f) => Aborted(items, f, {})
      case SlotDone(entry, f, generated) =>
        FirstSlot(items[0], offset, root, mode, svc, files, entry, f, generated);
        var mine := if generated then {entry.fields["image_path"].s} else {};
        var rest := ProduceAll(items[1..], offset + 1, root, mode, svc, f);
        ProduceCombineFiles(items, offset, root, mode, svc, files, entry, f, generated, mine, rest);
        ProduceCombineEntries(items, offset, root, mode, svc, files, entry, f, generated, mine, rest);
        match rest
        case Aborted(entries, g, w) => Aborted([entry] + entries, g, mine + w)
        case Completed(entries, g, calls, w) =>
          ProducedEntries(items, entry, entries);
          Completed([entry] + entries, g, (if generated then 1 else 0) + calls, mine + w)
  }

  /** How the first entry's result and the rest of the loop combine. */
  lemma ProduceStep(items: seq<Json>, offset: nat, root: string, mode: Mode, svc: Services, files: Files,
                    entry: Json, f: Files, generated: bool, rest: Slots)
    requires items != []
    requires ProduceSlot(items[0], offset, root, mode, svc, files) == SlotDone(entry, f, generated)
    requires forall p :: p in f && p !in rest.files ==> MayTouch(p, items[1..], offset + 1, root, svc.show)
    requires |rest.entries| == |items| - 1
    requires forall p :: p in rest.files && (p !in f || rest.files[p] != f[p]) ==>
      exists k :: 0 <= k < |items| - 1 && Processed(items[1..][k]) && RecordsPath(rest.entries[k], "image_path", p)
    ensures forall p :: p in files && p !in rest.files ==> MayTouch(p, items, offset, root, svc.show)
    ensures forall p :: p in rest.files && (p !in files || rest.files[p] != files[p]) ==>
      exists k :: 0 <= k < |items| && Processed(items[k]) && RecordsPath(([entry] + rest.entries)[k], "image_path", p)
  {
    var slot := ProduceSlot(items[0], offset, root, mode, svc, files);
    assert forall p :: p in files && p !in f ==> Processed(items[0]) && SlotPath(p, root, items[0], offset, svc.show);
    assert forall p :: p in f && (p !in files || f[p] != files[p]) ==> Processed(items[0]) && RecordsPath(entry, "image_path", p);
    RemovedSomewhere(items, offset, root, svc.show, files, f, rest.files);
    RecordedSomewhere(items, entry, files, f, rest.files, rest.entries);
  }

  /** What the loop promises about removed and changed files, for the first result in front of the rest. */
  lemma ProduceCombineFiles(items: seq<Json>, offset: nat, root: string, mode: Mode, svc: Services, files: Files,
                       entry: Json, f: Files, generated: bool, mine: set<string>, rest: Slots)
    requires items != []
    requires ProduceSlot(items[0], offset, root, mode, svc, files) == SlotDone(entry, f, generated)
    requires mine == if generated then {entry.fields["image_path"].s} else {}
    requires forall p :: p in f && p !in rest.files ==> f[p] <= MinValidSize || p in rest.written
    requires forall p :: p in rest.files && (p !in f || rest.files[p] != f[p]) ==> p in rest.written
    ensures forall p :: p in files && p !in rest.files ==> files[p] <= MinValidSize || p in mine + rest.written
    ensures forall p :: p in rest.files && (p !in files || rest.files[p] != files[p]) ==> p in mine + rest.written
  {
    FirstSlot(items[0], offset, root, mode, svc, files, entry, f, generated);
    RemovalsStaySmall(files, f, rest.files, mine, rest.written);
  }

  /** What the loop promises about its entries and the paths they record, for the first result in front of the rest. */
  lemma ProduceCombineEntries(items: seq<Json>, offset: nat, root: string, mode: Mode, svc: Services, files: Files,
                         entry: Json, f: Files, generated: bool, mine: set<string>, rest: Slots)
    requires items != []
    requires ProduceSlot(items[0], offset, root, mode, svc, files) == SlotDone(entry, f, generated)
    requires generated ==> Processed(items[0]) && RecordsPath(entry, "image_path", entry.fields["image_path"].s)
    requires mine == if generated then {entry.fields["image_path"].s} else {}
    requires |rest.entries| == |items| - 1
    requires forall k :: 0 <= k < |items| - 1 ==>
      rest.entries[k] == items[1..][k] || (Processed(items[1..][k]) && Annotated(items[1..][k], rest.entries[k], "image_path"))
    requires forall p :: p in f && p !in rest.files ==> MayTouch(p, items[1..], offset + 1, root, svc.show)
    requires forall p :: p in rest.written ==>
      exists k :: 0 <= k < |items| - 1 && Processed(items[1..][k]) && RecordsPath(rest.entries[k], "image_path", p)
    requires forall p :: p in rest.files && (p !in f || rest.files[p] != f[p]) ==>
      exists k :: 0 <= k < |items| - 1 && Processed(items[1..][k]) && RecordsPath(rest.entries[k], "image_path", p)
    ensures forall k :: 0 <= k < |items| ==>
      ([entry] + rest.entries)[k] == items[k] || (Processed(items[k]) && Annotated(items[k], ([entry] + rest.entries)[k], "image_path"))
    ensures forall p :: p in files && p !in rest.files ==> MayTouch(p, items, offset, root, svc.show)
    ensures forall p :: p in mine + rest.written ==>
      exists k :: 0 <= k < |items| && Processed(items[k]) && RecordsPath(([entry] + rest.entries)[k], "image_path", p)
    ensures forall p :: p in rest.files && (p !in files || rest.files[p] != files[p]) ==>
      exists k :: 0 <= k < |items| && Processed(items[k]) && RecordsPath(([entry] + rest.entries)[k], "image_path", p)
  {
    ProduceStep(items, offset, root, mode, svc, files, entry, f, generated, rest);
    KeptOrAnnotated(items, entry, rest.entries);
    WrittenRecorded(items, entry, rest.entries, mine, rest.written);
  }

  /** One iteration that returns: only small files go, and only a generation writes, at the path it records. */
  lemma FirstSlot(e: Json, offset: nat, root: string, mode: Mode, svc: Services, files: Files,
                  entry: Json, f: Files, generated: bool)
    requires ProduceSlot(e, offset, root, mode, svc, files) == SlotDone(entry, f, generated)
    ensures generated ==> Processed(e) && RecordsPath(entry, "image_path", entry.fields["image_path"].s)
    ensures forall p :: p in files && p !in f ==> files[p] <= MinValidSize
    ensures forall p :: p in f && (p !in files || f[p] != files[p]) ==> generated && RecordsPath(entry, "image_path", p)
  {
  }

  /** A path the first entry or the rest of the loop wrote is recorded by some entry. */
  lemma WrittenRecorded(items: seq<Json>, entry: Json, entries: seq<Json>, mine: set<string>, w: set<string>)
    requires items != [] && |entries| == |items| - 1
    requires forall p :: p in mine ==> Processed(items[0]) && RecordsPath(entry, "image_path", p)
    requires forall p :: p in w ==>
      exists k :: 0 <= k < |items| - 1 && Processed(items[1..][k]) && RecordsPath(entries[k], "image_path", p)
    ensures forall p :: p in mine + w ==>
      exists k :: 0 <= k < |items| && Processed(items[k]) && RecordsPath(([entry] + entries)[k], "image_path", p)
  {
    var all := [entry] + entries;
    forall p | p in mine + w
      ensures exists k :: 0 <= k < |items| && Processed(items[k]) && RecordsPath(all[k], "image_path", p)
    {
      if p in mine {
        assert Processed(items[0]) && RecordsPath(all[0], "image_path", p);
      } else {
        var k :| 0 <= k < |items| - 1 && Processed(items[1..][k]) && RecordsPath(entries[k], "image_path", p);
        assert items[k + 1] == items[1..][k] && all[k + 1] == entries[k];
      }
    }
  }

  /** The first entry, kept or annotated, in front of the rest keeps every entry kept or annotated. */
  lemma KeptOrAnnotated(items: seq<Json>, entry: Json, entries: seq<Json>)
    requires items != [] && |entries| == |items| - 1
    requires entry == items[0] || (Processed(items[0]) && Annotated(items[0], entry, "image_path"))
    requires forall k :: 0 <= k < |items| - 1 ==>
      entries[k] == items[1..][k] || (Processed(items[1..][k]) && Annotated(items[1..][k], entries[k], "image_path"))
    ensures forall k :: 0 <= k < |items| ==>
      ([entry] + entries)[k] == items[k] || (Processed(items[k]) && Annotated(items[k], ([entry] + entries)[k], "image_path"))
  {
    forall k | 1 <= k < |items|
      ensures items[k] == items[1..][k - 1] && ([entry] + entries)[k] == entries[k - 1]
    {
    }
  }

  /** The first entry's result in front of the rest keeps the per-entry facts. */
  lemma ProducedEntries(items: seq<Json>, entry: Json, entries: seq<Json>)
    requires items != [] && |entries| == |items| - 1
    requires items[0].Obj? && (Processed(items[0]) ==> Annotated(items[0], entry, "image_path"))
    requires !Processed(items[0]) ==> entry == items[0]
    requires forall k :: 0 <= k < |items| - 1 ==> items[1..][k].Obj?
    requires forall k :: 0 <= k < |items| - 1 && !Processed(items[1..][k]) ==> entries[k] == items[1..][k]
    requires forall k :: 0 <= k < |items| - 1 && Processed(items[1..][k]) ==> Annotated(items[1..][k], entries[k], "image_path")
    ensures forall k :: 0 <= k < |items| ==> items[k].Obj?
    ensures forall k :: 0 <= k < |items| && !Processed(items[k]) ==> ([entry] + entries)[k] == items[k]
    ensures forall k :: 0 <= k < |items| && Processed(items[k]) ==> Annotated(items[k], ([entry] + entries)[k], "image_path")
  {
    forall k | 1 <= k < |items|
      ensures items[k] == items[1..][k - 1] && ([entry] + entries)[k] == entries[k - 1]
    {
    }
  }

  lemma RemovedSomewhere(items: seq<Json>, offset: nat, root: string, show: Json -> string, files: Files, f: Files, g: Files)
    requires items != []
    requires forall p :: p in files && p !in f ==> Processed(items[0]) && SlotPath(p, root, items[0], offset, show)
    requires forall p :: p in f && p !in g ==> MayTouch(p, items[1..], offset + 1, root, show)
    ensures forall p :: p in files && p !in g ==> MayTouch(p, items, offset, root, show)
  {
    forall p | p in files && p !in g
      ensures MayTouch(p, items, offset, root, show)
    {
      if p in f {
        var k :| 0 <= k < |items[1..]| && Processed(items[1..][k]) && SlotPath(p, root, items[1..][k], offset + 1 + k, show);
        assert items[k + 1] == items[1..][k];
        assert offset + 1 + k == offset + (k + 1);
      } else {
        assert Processed(items[0]) && SlotPath(p, root, items[0], offset + 0, show);
      }
    }
  }

  lemma RecordedSomewhere(items: seq<Json>, entry: Json, files: Files, f: Files, g: Files, entries: seq<Json>)
    requires items != [] && |entries| == |items| - 1
    requires forall p :: p in f && (p !in files || f[p] != files[p]) ==> Processed(items[0]) && RecordsPath(entry, "image_path", p)
    requires forall p :: p in g && (p !in f || g[p] != f[p]) ==>
      exists k :: 0 <= k < |items| - 1 && Processed(items[1..][k]) && RecordsPath(entries[k], "image_path", p)
    ensures forall p :: p in g && (p !in files || g[p] != files[p]) ==>
      exists k :: 0 <= k < |items| && Processed(items[k]) && RecordsPath(([entry] + entries)[k], "image_path", p)
  {
    var all := [entry] + entries;
    forall p | p in g && (p !in files || g[p] != files[p])
      ensures exists k :: 0 <= k < |items| && Processed(items[k]) && RecordsPath(all[k], "image_path", p)
    {
      if p !in f || g[p] != f[p] {
        var k :| 0 <= k < |items| - 1 && Processed(items[1..][k]) && RecordsPath(entries[k], "image_path", p);
        assert items[k + 1] == items[1..][k] && all[k + 1] == entries[k];
      } else {
        assert Processed(items[0]) && RecordsPath(all[0], "image_path", p);
      }
    }
  }

  /** Every processed entry of `items` finds its image as the first candidate on disk, valid. */
  predicate Settled(files: Files, items: seq<Json>, offset: nat, root: string, show: Json -> string) {
    forall k :: 0 <= k < |items| && Processed(items[k]) ==>
      HitsCleanly(files, SlotBase(root, items[k], offset + k, show), ImageExts)
  }

  /** A run over settled entries generates nothing and removes nothing. */
  lemma {:induction false} SettledRunIsQuiet(items: seq<Json>, offset: nat, root: string, mode: Mode, svc: Services, files: Files)
    requires forall k :: 0 <= k < |items| ==> items[k].Obj?
    requires Settled(files, items, offset, root, svc.show)
    ensures ProduceAll(items, offset, root, mode, svc, files).Completed?
    ensures ProduceAll(items, offset, root, mode, svc, files).files == files
    ensures ProduceAll(items, offset, root, mode, svc, files).calls == 0
    decreases |items|
  {
    if items != [] {
      var e := items[0];
      if Processed(e) {
        var j: nat :| j < |ImageExts| && CleanHit(files, SlotBase(root, e, offset + 0, svc.show), ImageExts, j);
        CleanHitScan(files, svc.locked, SlotBase(root, e, offset, svc.show), ImageExts, j);
      }
      forall k | 0 <= k < |items[1..]| && Processed(items[1..][k])
        ensures HitsCleanly(files, SlotBase(root, items[1..][k], offset + 1 + k, svc.show), ImageExts)
      {
        assert items[1..][k] == items[k + 1] && offset + 1 + k == offset + (k + 1);
      }
      SettledRunIsQuiet(items[1..], offset + 1, root, mode, svc, files);
    }
  }

  /**
   * `ProductionAgent.run`.  A falsy `image_prompts` returns at once; a value
   * that is not a dict, or a list that cannot be iterated, raises.  The
   * entries are updated in place, so the context's `image_prompts` gains the
   * paths; `image_prompts.json` is not rewritten.  An exception in the loop
   * leaves the files generated so far on disk and the paths recorded so far
   * in the context's entries.
   */
  function ProductionStage(st: State, svc: Services): (r: Outcome)
    ensures !Present(st.ctx.imagePrompts) ==> r == Done(st)
    ensures Present(st.ctx.imagePrompts) && ListAt(st.ctx.imagePrompts.value, "image_prompts").None? ==> r == Fault(st)
    ensures r.state.disk.docs == st.disk.docs
    ensures OnlyWrites(st.ctx, r.state.ctx, ImagePromptsField)
    ensures Present(st.ctx.imagePrompts) && ListAt(st.ctx.imagePrompts.value, "image_prompts").Some? ==>
      var data := st.ctx.imagePrompts.value;
      var run := ProduceAll(ListAt(data, "image_prompts").value, 0, st.ctx.root, ModeOf(st.ctx.config, svc), svc, st.disk.assets);
      && (r.Done? <==> run.Completed?)
      && r.state.disk.assets == run.files
      && (HasKey(data, "image_prompts") && data.fields["image_prompts"].Arr? ==>
            r.state.ctx == st.ctx.(imagePrompts := Some(Put(data, "image_prompts", Arr(run.entries)))))
      && (!(HasKey(data, "image_prompts") && data.fields["image_prompts"].Arr?) ==> r.state.ctx == st.ctx)
    ensures r.Done? && Present(st.ctx.imagePrompts) ==>
      && ListAt(st.ctx.imagePrompts.value, "image_prompts").Some?
      && ProduceAll(ListAt(st.ctx.imagePrompts.value, "image_prompts").value, 0, st.ctx.root, ModeOf(st.ctx.config, svc), svc, st.disk.assets).Completed?
    ensures r.Done? && Present(st.ctx.imagePrompts) ==>
      var data := st.ctx.imagePrompts.value;
      var items := ListAt(data, "image_prompts").value;
      && r.state.ctx.imagePrompts.Some?
      && (HasKey(data, "image_prompts") && data.fields["image_prompts"].Arr? ==>
            && r.state.ctx.imagePrompts.value.Obj?
            && r.state.ctx.imagePrompts.value.fields == data.fields["image_prompts" :=
                 Arr(ProduceAll(items, 0, st.ctx.root, ModeOf(st.ctx.config, svc), svc, st.disk.assets).entries)])
      && (!(HasKey(data, "image_prompts") && data.fields["image_prompts"].Arr?) ==> r == Done(st))
    ensures Present(st.ctx.imagePrompts) && ListAt(st.ctx.imagePrompts.value, "image_prompts").Some? ==>
      forall p :: p in st.disk.assets && p !in r.state.disk.assets ==>
        MayTouch(p, ListAt(st.ctx.imagePrompts.value, "image_prompts").value, 0, st.ctx.root, svc.show)
  {
    if !Present(st.ctx.imagePrompts) then Done(st)
    else
      var data := st.ctx.imagePrompts.value;
      match ListAt(data, "image_prompts")
      case None => Fault(st)
      case Some(items) =>
        var run := ProduceAll(items, 0, st.ctx.root, ModeOf(st.ctx.config, svc), svc, st.disk.assets);
        var updated := if HasKey(data, "image_prompts") && data.fields["image_prompts"].Arr?
          then Put(data, "image_prompts", Arr(run.entries)) else data;
        var after := State(st.ctx.(imagePrompts := Some(updated)), st.disk.(assets := run.files));
        if run.Completed? then Done(after) else Fault(after)
  }

  /** A second run over entries that all hit cleanly leaves the disk as it was. */
  lemma SettledStageIsQuiet(st: State, svc: Services)
    requires Present(st.ctx.imagePrompts) && ListAt(st.ctx.imagePrompts.value, "image_prompts").Some?
    requires forall k :: 0 <= k < |ListAt(st.ctx.imagePrompts.value, "image_prompts").value| ==> ListAt(st.ctx.imagePrompts.value, "image_prompts").value[k].Obj?
    requires Settled(st.disk.assets, ListAt(st.ctx.imagePrompts.value, "image_prompts").value, 0, st.ctx.root, svc.show)
    ensures ProductionStage(st, svc).Done?
    ensures ProductionStage(st, svc).state.disk == st.disk
  {
    SettledRunIsQuiet(ListAt(st.ctx.imagePrompts.value, "image_prompts").value, 0, st.ctx.root, ModeOf(st.ctx.config, svc), svc, st.disk.assets);
  }

  /** Where a slot with a plain id is generated, and its cache base. */
  lemma PlainTarget(root: string, entry: Json, i: nat, show: Json -> string, id: string)
    requires entry.Obj? && "slot_id" in entry.fields && entry.fields["slot_id"] == Str(id) && PlainName(id)
    ensures Target(root, entry, i, show) == Join(ImageDir(root), id) + ".png"
    ensures Splitext(Target(root, entry, i, show)) == (Join(ImageDir(root), id), ".png")
    ensures SlotBase(root, entry, i, show) == Join(ImageDir(root), id)
  {
    assert PlainExt(".png");
    SplitextOfJoin(ImageDir(root), id, ".png");
  }

  /** A live image call whose first try returns one part of data with a ".png" MIME guess writes exactly that file. */
  lemma LivePngCall(prompt: Json, img: string, attempt: nat -> Attempt<seq<Part>>, guess: string -> Option<string>,
                    files: Files, locked: set<string>, mime: string, size: nat)
    requires attempt(0) == Returns([Part(mime, size)]) && size > 0
    requires guess(mime) == Some(".png") && Splitext(img).1 == ".png" && img != ""
    ensures GenerateImage(Live, prompt, img, attempt, guess, files, locked) == Some(Generated(img, files[img := size]))
  {
    RetryOutcome(ImageRetries, 2.0, attempt, 0);
    assert FirstData([Part(mime, size)]) == Some(0);
    assert Lower(".png") == Lower(Splitext(img).1);
  }

  /** A completed loop over a stored list of entries: the list is replaced by the loop's entries and the files by its files. */
  lemma CompletedStage(st: State, svc: Services, items: seq<Json>, entries: seq<Json>, files: Files)
    requires Present(st.ctx.imagePrompts) && HasKey(st.ctx.imagePrompts.value, "image_prompts")
    requires st.ctx.imagePrompts.value.fields["image_prompts"] == Arr(items)
    requires ProduceAll(items, 0, st.ctx.root, ModeOf(st.ctx.config, svc), svc, st.disk.assets).Completed?
    requires ProduceAll(items, 0, st.ctx.root, ModeOf(st.ctx.config, svc), svc, st.disk.assets).entries == entries
    requires ProduceAll(items, 0, st.ctx.root, ModeOf(st.ctx.config, svc), svc, st.disk.assets).files == files
    ensures ProductionStage(st, svc) ==
      Done(State(st.ctx.(imagePrompts := Some(Put(st.ctx.imagePrompts.value, "image_prompts", Arr(entries)))), st.disk.(assets := files)))
  {
    assert ListAt(st.ctx.imagePrompts.value, "image_prompts") == Some(items);
  }

  /** The stage on a context whose image prompts are exactly `{"image_prompts": [entry]}`. */
  lemma SingleEntryStage(st: State, svc: Services, entry: Json, entries: seq<Json>, files: Files)
    requires st.ctx.imagePrompts == Some(Obj(map["image_prompts" := Arr([entry])]))
    requires ProduceAll([entry], 0, st.ctx.root, ModeOf(st.ctx.config, svc), svc, st.disk.assets).Completed?
    requires ProduceAll([entry], 0, st.ctx.root, ModeOf(st.ctx.config, svc), svc, st.disk.assets).entries == entries
    requires ProduceAll([entry], 0, st.ctx.root, ModeOf(st.ctx.config, svc), svc, st.disk.assets).files == files
    ensures ProductionStage(st, svc) ==
      Done(State(st.ctx.(imagePrompts := Some(Obj(map["image_prompts" := Arr(entries)]))), st.disk.(assets := files)))
  {
    assert Present(st.ctx.imagePrompts) by { assert "image_prompts" in st.ctx.imagePrompts.value.fields; }
    CompletedStage(st, svc, [entry], entries, files);
    PutOnly("image_prompts", Arr([entry]), Arr(entries));
  }

  /** Replacing the only key of a one-key object gives the one-key object of the new value. */
  lemma PutOnly(key: string, before: Json, after: Json)
    ensures Put(Obj(map[key := before]), key, after) == Obj(map[key := after])
  {
    assert Put(Obj(map[key := before]), key, after).fields.Keys == {key};
  }

  /** A loop over one entry returns what the entry's iteration returned. */
  lemma SingletonLoop(e: Json, offset: nat, root: string, mode: Mode, svc: Services, files: Files, e1: Json, f1: Files, generated: bool)
    requires ProduceSlot(e, offset, root, mode, svc, files) == SlotDone(e1, f1, generated)
    ensures ProduceAll([e], offset, root, mode, svc, files) ==
      Completed([e1], f1, if generated then 1 else 0, if generated then {e1.fields["image_path"].s} else {})
  {
    FirstSlot(e, offset, root, mode, svc, files, e1, f1, generated);
    var mine: set<string> := if generated then {e1.fields["image_path"].s} else {};
    assert [e][1..] == [];
    assert [e1] + [] == [e1] && mine + {} == mine;
  }

  /** First run of the one-slot case: one generation call, one new file. */
  lemma OneSlotFirstRun(root: string, svc: Services, entry: Json, id: string, files: Files, mime: string, size: nat)
    requires Processed(entry) && "slot_id" in entry.fields && entry.fields["slot_id"] == Str(id) && PlainName(id)
    requires forall k :: 0 <= k < |ImageExts| ==> Join(ImageDir(root), id) + ImageExts[k] !in files
    requires svc.image(entry.fields["prompt_text"], Join(ImageDir(root), id) + ".png")(0) == Returns([Part(mime, size)])
    requires svc.guess(mime) == Some(".png") && size > 0
    ensures
      var img := Join(ImageDir(root), id) + ".png";
      ProduceAll([entry], 0, root, Live, svc, files) == Completed([Put(entry, "image_path", Str(img))], files[img := size], 1, {img})
  {
    var base := Join(ImageDir(root), id);
    var img := base + ".png";
    PlainTarget(root, entry, 0, svc.show, id);
    NoCandidateMisses(files, svc.locked, base, ImageExts);
    var prompt := entry.fields["prompt_text"];
    LivePngCall(prompt, img, svc.image(prompt, img), svc.guess, files, svc.locked, mime, size);
    assert ProcessSlot(entry, 0, root, Live, svc, files) == SlotDone(Put(entry, "image_path", Str(img)), files[img := size], true);
    SingletonLoop(entry, 0, root, Live, svc, files, Put(entry, "image_path", Str(img)), files[img := size], true);
  }

  /** Second run of the one-slot case: the recorded image is reused as it is. */
  lemma OneSlotSecondRun(root: string, mode: Mode, svc: Services, entry: Json, id: string, files: Files)
    requires entry.Obj? && "slot_id" in entry.fields && entry.fields["slot_id"] == Str(id) && PlainName(id)
    requires "image_path" in entry.fields && entry.fields["image_path"] == Str(Join(ImageDir(root), id) + ".png")
    requires "prompt_text" in entry.fields
    requires Valid(files, Join(ImageDir(root), id) + ".png")
    ensures ProduceAll([entry], 0, root, mode, svc, files) == Completed([entry], files, 0, {})
  {
    var base := Join(ImageDir(root), id);
    PlainTarget(root, entry, 0, svc.show, id);
    assert ImageExts[0] == ".png";
    CleanHitScan(files, svc.locked, base, ImageExts, 0);
    RecordedHit(entry, base + ".png", Guard(files, svc.locked, base, ImageExts), mode, svc);
    assert ProcessSlot(entry, 0, root, mode, svc, files) == SlotDone(entry, files, false);
    SingletonLoop(entry, 0, root, mode, svc, files, entry, files, false);
  }

  /** A hit the entry already records as its `image_path` leaves the entry and the files as they are. */
  lemma RecordedHit(entry: Json, img: string, scan: Scan, mode: Mode, svc: Services)
    requires Processed(entry) && "image_path" in entry.fields && entry.fields["image_path"] == Str(img)
    requires scan.hit == Some(img)
    ensures AfterScan(entry, img, scan, mode, svc) == SlotDone(entry, scan.files, false)
  {
    assert Put(entry, "image_path", Str(img)).fields == entry.fields;
  }

  /**
   * One slot, a live client, no image on disk, and a service that answers at
   * the first try with more than 1024 bytes of PNG data: the first run
   * generates once, writes that one file and records it; a second run on
   * what the first left behind changes nothing.
   */
  lemma OneSlotTwoRuns(st: State, svc: Services, entry: Json, id: string, mime: string, size: nat)
    requires ModeOf(st.ctx.config, svc) == Live
    requires st.ctx.imagePrompts == Some(Obj(map["image_prompts" := Arr([entry])]))
    requires Processed(entry) && "slot_id" in entry.fields && entry.fields["slot_id"] == Str(id) && PlainName(id)
    requires forall k :: 0 <= k < |ImageExts| ==> Join(ImageDir(st.ctx.root), id) + ImageExts[k] !in st.disk.assets
    requires svc.image(entry.fields["prompt_text"], Join(ImageDir(st.ctx.root), id) + ".png")(0) == Returns([Part(mime, size)])
    requires svc.guess(mime) == Some(".png") && size > MinValidSize
    ensures
      var img := Join(ImageDir(st.ctx.root), id) + ".png";
      var first := ProductionStage(st, svc);
      && first.Done?
      && first.state.disk.assets == st.disk.assets[img := size]
      && first.state.ctx.imagePrompts == Some(Obj(map["image_prompts" := Arr([Put(entry, "image_path", Str(img))])]))
      && ProductionStage(first.state, svc) == first
  {
    var img := Join(ImageDir(st.ctx.root), id) + ".png";
    var entry1 := Put(entry, "image_path", Str(img));
    var files1 := st.disk.assets[img := size];
    OneSlotFirstRun(st.ctx.root, svc, entry, id, st.disk.assets, mime, size);
    SingleEntryStage(st, svc, entry, [entry1], files1);
    var first := ProductionStage(st, svc);
    OneSlotSecondRun(st.ctx.root, Live, svc, entry1, id, files1);
    SingleEntryStage(first.state, svc, entry1, [entry1], files1);
  }
}
