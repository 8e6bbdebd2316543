/** The bucket as S3 sees it: deleting a prefix of the rendered keys is what the step system says a deletion does. */
module BucketLayout {
  import opened Basics
  import opened Bucket
  import opened Keys
  import opened DrmKeys
  import opened PipelineState
  import opened PipelineSteps

  predicate Tidy(objects: map<Key, string>) {
    forall k :: k in objects ==> WellNamed(k)
  }

  lemma PathsDiffer(objects: map<Key, string>)
    requires Tidy(objects)
    ensures forall j, k :: j in objects && k in objects && Path(j) == Path(k) ==> j == k
  {
    forall j, k | j in objects && k in objects && Path(j) == Path(k) ensures j == k {
      PathInjective(j, k);
    }
  }

  /** The same objects under their string keys. */
  function Rendered(objects: map<Key, string>): map<string, string>
    requires Tidy(objects)
  {
    PathsDiffer(objects);
    map k | k in objects :: Path(k) := objects[k]
  }

  lemma RenderedHas(objects: map<Key, string>, k: Key)
    requires Tidy(objects) && k in objects
    ensures Path(k) in Rendered(objects) && Rendered(objects)[Path(k)] == objects[k]
  {
    PathsDiffer(objects);
  }

  lemma RenderedFrom(objects: map<Key, string>, p: string) returns (k: Key)
    requires Tidy(objects) && p in Rendered(objects)
    ensures k in objects && Path(k) == p && Rendered(objects)[p] == objects[k]
  {
    k :| k in objects && Path(k) == p;
    RenderedHas(objects, k);
  }

  /** `kept` is what is left of `objects` once everything under the prefix is deleted. */
  predicate IsRest(objects: map<Key, string>, kept: map<Key, string>, prefix: string) {
    && (forall k :: k in objects && !(prefix <= Path(k)) ==> k in kept)
    && (forall k :: k in kept ==> k in objects && !(prefix <= Path(k)) && kept[k] == objects[k])
  }

  lemma KeptIsRendered(objects: map<Key, string>, kept: map<Key, string>, prefix: string, p: string)
    requires Tidy(objects) && Tidy(kept) && IsRest(objects, kept, prefix) && p in Rendered(kept)
    ensures p in Without(Rendered(objects), prefix) && Without(Rendered(objects), prefix)[p] == Rendered(kept)[p]
  {
    var k := RenderedFrom(kept, p);
    RenderedHas(objects, k);
  }

  lemma RestIsRendered(objects: map<Key, string>, kept: map<Key, string>, prefix: string, p: string)
    requires Tidy(objects) && Tidy(kept) && IsRest(objects, kept, prefix) && p in Without(Rendered(objects), prefix)
    ensures p in Rendered(kept)
  {
    var k := RenderedFrom(objects, p);
    RenderedHas(kept, k);
  }

  lemma RenderedWithout(objects: map<Key, string>, kept: map<Key, string>, prefix: string)
    requires Tidy(objects) && IsRest(objects, kept, prefix)
    ensures Tidy(kept) && Rendered(kept) == Without(Rendered(objects), prefix)
  {
    forall p | p in Rendered(kept)
      ensures p in Without(Rendered(objects), prefix) && Without(Rendered(objects), prefix)[p] == Rendered(kept)[p]
    {
      KeptIsRendered(objects, kept, prefix, p);
    }
    forall p | p in Without(Rendered(objects), prefix) ensures p in Rendered(kept) {
      RestIsRendered(objects, kept, prefix, p);
    }
  }

  /** Each handler's prefix reaches exactly the keys it is meant to: one resolution's, one video's variants or
      thumbnails, or everything of one video. */
  lemma DeletionsMatchTheBucket(objects: map<Key, string>, video: string, res: string)
    requires Tidy(objects) && NoSlash(video) && NoSlash(res)
    ensures Tidy(DropVariants(objects, video)) && Tidy(DropVariant(objects, video, res))
    ensures Tidy(DropThumbnails(objects, video)) && Tidy(DropVideo(objects, video))
    ensures Rendered(DropVariants(objects, video)) == Without(Rendered(objects), VariantsPrefix(video))
    ensures Rendered(DropVariant(objects, video, res)) == Without(Rendered(objects), VariantPrefix(video, res))
    ensures Rendered(DropThumbnails(objects, video)) == Without(Rendered(objects), ThumbnailsPrefix(video))
    ensures Rendered(DropVideo(objects, video)) == Without(Rendered(objects), VideoPrefix(video))
  {
    forall k | k in objects
      ensures VariantsPrefix(video) <= Path(k) <==> k.video == video && k.VariantFile?
      ensures VariantPrefix(video, res) <= Path(k) <==> k.video == video && k.VariantFile? && k.res == res
      ensures ThumbnailsPrefix(video) <= Path(k) <==> k.video == video && k.ThumbnailFile?
      ensures VideoPrefix(video) <= Path(k) <==> k.video == video
    {
      VariantsPrefixReaches(video, k);
      VariantPrefixReaches(video, res, k);
      ThumbnailsPrefixReaches(video, k);
      VideoPrefixReaches(video, k);
    }
    RenderedWithout(objects, DropVariants(objects, video), VariantsPrefix(video));
    RenderedWithout(objects, DropVariant(objects, video, res), VariantPrefix(video, res));
    RenderedWithout(objects, DropThumbnails(objects, video), ThumbnailsPrefix(video));
    RenderedWithout(objects, DropVideo(objects, video), VideoPrefix(video));
  }

  // ---- Names over whole runs ----

  /** Resolution names are one path element. */
  predicate NamesItsFiles(step: Step) {
    step.Start? ==> forall spec :: spec in step.specs ==> NoSlash(spec.res)
  }

  predicate NamedParams(video: string, params: Params) {
    NoSlash(video) && (params.TranscodeParams? ==> NoSlash(params.res))
  }

  predicate NamesOk(s: State) {
    && Tidy(s.objects)
    && (forall v :: v in s.videos ==> NoSlash(v))
    && (forall t :: t in s.tasks ==> NamedParams(s.tasks[t].video, s.tasks[t].params))
    && (forall m :: m in s.messages ==> NamedParams(m.video, m.params))
  }

  lemma {:induction false} TranscodesAreNamed(s: State, video: string, specs: seq<Spec>, codec: string,
                                              drm: Option<DrmParams>, ids: seq<string>)
    requires NamesOk(s) && video in s.videos && |ids| == |specs|
    requires forall spec :: spec in specs ==> NoSlash(spec.res)
    ensures NamesOk(AddTranscodes(s, video, specs, codec, drm, ids))
  {
    if specs != [] {
      var n := |specs| - 1;
      TranscodesAreNamed(s, video, specs[..n], codec, drm, ids[..n]);
      assert specs[n] in specs;
    }
  }

  lemma PhaseKeepsNames(s: State, i: nat, phase: Phase)
    requires NamesOk(s) && i < |s.messages|
    ensures NamesOk(SetPhase(s, i, phase))
  {}

  lemma CompletionKeepsNames(s: State, t: string, r: TaskResult)
    requires NamesOk(s)
    ensures NamesOk(CompleteTask(s, t, r))
  {
    CompleteTaskFrame(s, t, r);
    var s' := CompleteTask(s, t, r);
    forall k | k in s'.objects ensures WellNamed(k) {
      if k !in s.objects {
        assert k == Master(s.tasks[t].video);
      }
    }
  }

  lemma StartKeepsNames(s: State, step: Step)
    requires step.Start? && NamesOk(s) && Enabled(s, step) && NamesItsFiles(step)
    ensures NamesOk(Apply(s, step))
  {
    if step.video in s.videos {
      PrepareFrame(s, step.video, step.globalDrm, step.base, step.rnd);
      var s1 := PrepareTranscode(s, step.video, step.globalDrm, step.base, step.rnd);
      TranscodesAreNamed(s1, step.video, step.specs, CodecOr(step.codec),
                         TaskKey(s1, step.video, s.videos[step.video].hasDRM || step.globalDrm), step.ids);
    }
  }

  lemma RemovalKeepsNames(s: State, step: Step)
    requires step.RemoveVariants? || step.RemoveVariant? || step.RemoveVideo?
    requires NamesOk(s) && Enabled(s, step)
    ensures NamesOk(Apply(s, step))
  {}

  lemma UploadKeepsNames(s: State, step: Step)
    requires step.FinishUpload? && NamesOk(s) && Enabled(s, step)
    ensures NamesOk(Apply(s, step))
  {}

  lemma KeysKeepNames(s: State, step: Step)
    requires step.SwitchDRM? || step.MakeKeys? || step.RemakeKeys?
    requires NamesOk(s) && Enabled(s, step)
    ensures NamesOk(Apply(s, step))
  {}

  lemma StepKeepsNames(s: State, step: Step)
    requires NamesOk(s) && Enabled(s, step) && NamesItsFiles(step)
    ensures NamesOk(Apply(s, step))
  {
    match step
    case Start(_, _, _, _, _, _, _) => StartKeepsNames(s, step);
    case RemoveVariants(_) => RemovalKeepsNames(s, step);
    case RemoveVariant(_, _) => RemovalKeepsNames(s, step);
    case RemoveVideo(_) => RemovalKeepsNames(s, step);
    case FinishUpload(_, _, _, _) => UploadKeepsNames(s, step);
    case SwitchDRM(_, _, _, _) => KeysKeepNames(s, step);
    case MakeKeys(_, _, _) => KeysKeepNames(s, step);
    case RemakeKeys(_, _, _) => KeysKeepNames(s, step);
    case Deliver(i) => PhaseKeepsNames(s, i, Delivered(false));
    case Upload(i, _, _) => assert s.messages[i] in s.messages;
    case ReportComplete(i, r) =>
      CompletionKeepsNames(s, s.messages[i].task, r);
      CompleteTaskFrame(s, s.messages[i].task, r);
      PhaseKeepsNames(CompleteTask(s, s.messages[i].task, r), i, Reported);
    case ReportFail(i) => PhaseKeepsNames(SetTaskStatus(s, s.messages[i].task, Failed), i, Reported);
    case Ack(i) => PhaseKeepsNames(s, i, Acked);
    case _ =>
  }

  lemma {:induction false} RunKeepsNames(s: State, steps: seq<Step>)
    requires NamesOk(s) && Legal(s, steps) && forall step :: step in steps ==> NamesItsFiles(step)
    ensures NamesOk(Run(s, steps))
    decreases steps
  {
    if steps != [] {
      StepKeepsNames(s, steps[0]);
      RunKeepsNames(Apply(s, steps[0]), steps[1..]);
    }
  }

  /** Deleting a video removes exactly its row, its tasks and its keys. */
  lemma RowsAfterDeletion(s: State, video: string)
    requires video in s.videos
    ensures var s' := DeleteVideo(s, video);
            && video !in s'.videos
            && (forall v :: v in s.videos && v != video ==> v in s'.videos && s'.videos[v] == s.videos[v])
            && (forall t :: t in s'.tasks <==> t in s.tasks && s.tasks[t].video != video)
            && (forall t :: t in s'.tasks ==> s'.tasks[t] == s.tasks[t])
            && (forall k :: k in s'.keys <==> k in s.keys && k.video != video)
  {
    DropKeysRows(s.keys, video);
  }

  /** After any run, whatever it deletes under running transcodes, deleting a video leaves no object under its
      prefix, no row, no task and no key of it, and touches no object, row, task or key of another video. */
  lemma DeletedVideoIsGone(steps: seq<Step>, video: string)
    requires Legal(EMPTY_STATE, steps) && forall step :: step in steps ==> NamesItsFiles(step)
    ensures var s := Run(EMPTY_STATE, steps);
            var s' := DeleteVideo(s, video);
            video in s.videos ==>
              && Tidy(s'.objects)
              && (forall p :: p in Rendered(s'.objects) ==> !(VideoPrefix(video) <= p))
              && (forall k :: k in s.objects && k.video != video ==> k in s'.objects && s'.objects[k] == s.objects[k])
              && video !in s'.videos
              && (forall v :: v in s.videos && v != video ==> v in s'.videos && s'.videos[v] == s.videos[v])
              && (forall t :: t in s'.tasks <==> t in s.tasks && s.tasks[t].video != video)
              && (forall t :: t in s'.tasks ==> s'.tasks[t] == s.tasks[t])
              && (forall k :: k in s'.keys <==> k in s.keys && k.video != video)
  {
    RunKeepsNames(EMPTY_STATE, steps);
    var s := Run(EMPTY_STATE, steps);
    if video in s.videos {
      DeletionsMatchTheBucket(s.objects, video, "");
      RowsAfterDeletion(s, video);
    }
  }
}
