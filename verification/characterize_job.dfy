/** The characterization job: characterize a generic file, then make its
    thumbnail inline and push at most one transcoding job for the same file.
    The type predicates `pdf?`, `image?`, `video?` and `audio?` are four
    independent booleans decided by the external characterization tool. */
module CharacterizeJobs {

  type FileId = string

  /** What characterization detected about the current content. */
  datatype ContentTypes = ContentTypes(pdf: bool, image: bool, video: bool, audio: bool)

  /** The jobs this component puts on the shared queue; each targets one file. */
  datatype Job =
    | TranscodeVideoJob(fileId: FileId)
    | TranscodeAudioJob(fileId: FileId)

  /** One observable effect of running a characterization job, in order. */
  datatype Step =
    | Characterize(id: FileId)
    | CreateThumbnail(id: FileId)
    | Push(job: Job)

  /** The lane every characterization job names: the slow, end-of-the-line lane. */
  const CharacterizeQueue: string := "zzz_characterize"

  /** True when a thumbnail is made for content with these types. */
  predicate WantsThumbnail(t: ContentTypes)
  {
    t.pdf || t.image || t.video
  }

  /** The effects of `after_characterize`, in the order it performs them. */
  function AfterCharacterizeSteps(t: ContentTypes, id: FileId): seq<Step>
  {
    (if WantsThumbnail(t) then [CreateThumbnail(id)] else [])
    + (if t.video then [Push(TranscodeVideoJob(id))]
       else if t.audio then [Push(TranscodeAudioJob(id))]
       else [])
  }

  /** The effects of `run`: characterization first, then the follow-up rule. */
  function RunSteps(t: ContentTypes, id: FileId): seq<Step>
  {
    [Characterize(id)] + AfterCharacterizeSteps(t, id)
  }

  /** Number of thumbnails made by a sequence of effects. */
  function Thumbnails(steps: seq<Step>): (n: nat)
    ensures n <= |steps|
    ensures n == 0 <==> forall i :: 0 <= i < |steps| ==> !steps[i].CreateThumbnail?
  {
    if steps == [] then 0
    else (if steps[0].CreateThumbnail? then 1 else 0) + Thumbnails(steps[1..])
  }

  /** The jobs pushed by a sequence of effects, in push order. */
  function Pushed(steps: seq<Step>): (jobs: seq<Job>)
    ensures |jobs| <= |steps|
    ensures forall j :: j in jobs <==> Push(j) in steps
  {
    if steps == [] then []
    else (if steps[0].Push? then [steps[0].job] else []) + Pushed(steps[1..])
  }

  lemma {:induction false} ThumbnailsAppend(a: seq<Step>, b: seq<Step>)
    ensures Thumbnails(a + b) == Thumbnails(a) + Thumbnails(b)
  {
    if a == [] {
      assert a + b == b;
    } else {
      assert (a + b)[1..] == a[1..] + b;
      ThumbnailsAppend(a[1..], b);
    }
  }

  lemma {:induction false} PushedAppend(a: seq<Step>, b: seq<Step>)
    ensures Pushed(a + b) == Pushed(a) + Pushed(b)
  {
    if a == [] {
      assert a + b == b;
    } else {
      assert (a + b)[1..] == a[1..] + b;
      PushedAppend(a[1..], b);
    }
  }

  /** A thumbnail is made exactly once when the file is a pdf, an image or a
      video, and never otherwise. */
  lemma ThumbnailIffVisual(t: ContentTypes, id: FileId)
    ensures Thumbnails(AfterCharacterizeSteps(t, id)) == (if t.pdf || t.image || t.video then 1 else 0)
  {
    var th: seq<Step> := if WantsThumbnail(t) then [CreateThumbnail(id)] else [];
    var tr: seq<Step> := if t.video then [Push(TranscodeVideoJob(id))]
                         else if t.audio then [Push(TranscodeAudioJob(id))] else [];
    ThumbnailsAppend(th, tr);
  }

  /** A video gets exactly one video transcode and no audio transcode, even
      when it also answers `audio?`. */
  lemma VideoTakesPrecedence(t: ContentTypes, id: FileId)
    requires t.video
    ensures Pushed(AfterCharacterizeSteps(t, id)) == [TranscodeVideoJob(id)]
    ensures TranscodeAudioJob(id) !in Pushed(AfterCharacterizeSteps(t, id))
  {
    PushedAppend([CreateThumbnail(id)], [Push(TranscodeVideoJob(id))]);
  }

  /** Audio that is not video gets exactly one audio transcode. */
  lemma AudioWithoutVideo(t: ContentTypes, id: FileId)
    requires t.audio && !t.video
    ensures Pushed(AfterCharacterizeSteps(t, id)) == [TranscodeAudioJob(id)]
  {
    var th: seq<Step> := if WantsThumbnail(t) then [CreateThumbnail(id)] else [];
    PushedAppend(th, [Push(TranscodeAudioJob(id))]);
  }

  /** Neither video nor audio: nothing is pushed, so the queue is unchanged. */
  lemma NoMediaNoPush(t: ContentTypes, id: FileId)
    requires !t.video && !t.audio
    ensures Pushed(AfterCharacterizeSteps(t, id)) == []
  {
    var th: seq<Step> := if WantsThumbnail(t) then [CreateThumbnail(id)] else [];
    PushedAppend(th, []);
  }

  /** At most one job is pushed, and it targets the file being characterized. */
  lemma AtMostOnePushForSameFile(t: ContentTypes, id: FileId)
    ensures |Pushed(AfterCharacterizeSteps(t, id))| <= 1
    ensures forall j :: j in Pushed(AfterCharacterizeSteps(t, id)) ==> j.fileId == id
  {
    if t.video {
      VideoTakesPrecedence(t, id);
    } else if t.audio {
      AudioWithoutVideo(t, id);
    } else {
      NoMediaNoPush(t, id);
    }
  }

  /** The thumbnail is made before any transcoding job is pushed. */
  lemma ThumbnailBeforePush(t: ContentTypes, id: FileId)
    ensures var steps := AfterCharacterizeSteps(t, id);
      forall i, j :: 0 <= i < |steps| && 0 <= j < |steps| && steps[i].CreateThumbnail? && steps[j].Push? ==> i < j
  {
  }

  /** `run` characterizes first, exactly once, before any follow-up decision. */
  lemma CharacterizeComesFirst(t: ContentTypes, id: FileId)
    ensures RunSteps(t, id)[0] == Characterize(id)
    ensures forall i :: 0 < i < |RunSteps(t, id)| ==> !RunSteps(t, id)[i].Characterize?
  {
  }

  /** The file a characterization job works on. Characterization stores the
      detected types; `create_thumbnail` is counted, its output is not modelled. */
  class GenericFile {
    const id: FileId
    var characterized: bool
    var types: ContentTypes
    var thumbnails: nat

    constructor (id: FileId, types: ContentTypes)
      ensures this.id == id && !characterized && this.types == types && thumbnails == 0
    {
      this.id := id;
      characterized := false;
      this.types := types;
      thumbnails := 0;
    }

    method Characterize(detected: ContentTypes)
      modifies this
      ensures characterized && types == detected
      ensures thumbnails == old(thumbnails)
    {
      characterized := true;
      types := detected;
    }

    method CreateThumbnail()
      modifies this
      ensures thumbnails == old(thumbnails) + 1
      ensures characterized == old(characterized) && types == old(types)
    {
      thumbnails := thumbnails + 1;
    }
  }

  /** The shared job queue, as an append-only sequence of pending jobs. */
  class JobQueue {
    var jobs: seq<Job>

    constructor ()
      ensures jobs == []
    {
      jobs := [];
    }

    method Push(job: Job)
      modifies this
      ensures jobs == old(jobs) + [job]
    {
      jobs := jobs + [job];
    }
  }

  /** A characterization job for one file. The ghost `trace` records the
      effects the job has performed, in order. */
  class CharacterizeJob {
    const genericFileId: FileId
    ghost var trace: seq<Step>

    constructor (genericFileId: FileId)
      ensures this.genericFileId == genericFileId && trace == []
    {
      this.genericFileId := genericFileId;
      trace := [];
    }

    /** The queue this job is submitted to, whatever file it targets. */
    function QueueName(): (name: string)
      ensures name == "zzz_characterize"
    {
      CharacterizeQueue
    }

    /** Characterize the file, then apply the follow-up rule to what was detected. */
    method Run(file: GenericFile, queue: JobQueue, detected: ContentTypes)
      requires file.id == genericFileId
      modifies this, file, queue
      ensures file.characterized && file.types == detected
      ensures trace == old(trace) + RunSteps(detected, genericFileId)
      ensures file.thumbnails == old(file.thumbnails) + Thumbnails(AfterCharacterizeSteps(detected, genericFileId))
      ensures queue.jobs == old(queue.jobs) + Pushed(AfterCharacterizeSteps(detected, genericFileId))
    {
      file.Characterize(detected);
      trace := trace + [Characterize(genericFileId)];
      AfterCharacterize(file, queue);
    }

    /** Make the thumbnail inline for visual content; push one transcode job,
        video taking precedence over audio. */
    method AfterCharacterize(file: GenericFile, queue: JobQueue)
      requires file.id == genericFileId
      modifies this, file, queue
      ensures file.characterized == old(file.characterized) && file.types == old(file.types)
      ensures trace == old(trace) + AfterCharacterizeSteps(old(file.types), genericFileId)
      ensures file.thumbnails == old(file.thumbnails) + Thumbnails(AfterCharacterizeSteps(old(file.types), genericFileId))
      ensures queue.jobs == old(queue.jobs) + Pushed(AfterCharacterizeSteps(old(file.types), genericFileId))
    {
      ghost var t := file.types;
      ghost var id := genericFileId;
      ThumbnailIffVisual(t, id);
      if file.types.pdf || file.types.image || file.types.video {
        file.CreateThumbnail();
        trace := trace + [CreateThumbnail(genericFileId)];
      }
      if file.types.video {
        VideoTakesPrecedence(t, id);
        queue.Push(TranscodeVideoJob(genericFileId));
        trace := trace + [Push(TranscodeVideoJob(genericFileId))];
      } else if file.types.audio {
        AudioWithoutVideo(t, id);
        queue.Push(TranscodeAudioJob(genericFileId));
        trace := trace + [Push(TranscodeAudioJob(genericFileId))];
      } else {
        NoMediaNoPush(t, id);
      }
    }
  }

  /** Every characterization job names the same queue, whatever its file. */
  lemma QueueNameIgnoresFile(a: CharacterizeJob, b: CharacterizeJob)
    ensures a.QueueName() == b.QueueName() == CharacterizeQueue
  {
  }
}
