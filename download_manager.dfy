/** The download queue and registry. Each coroutine step that runs between two
    `await`s is one atomic method here: submitting work (`add_download`), a
    worker taking the next task and passing the semaphore (`BeginDownload`), a
    worker finishing that task, successfully or not (`FinishDownload`),
    starting the workers and shutting down. yt-dlp itself is left out; whether
    a download succeeded is a parameter. */
module Downloads {
  import opened Common
  import YoutubeService

  /** The manager's default `max_workers`. */
  const DefaultMaxWorkers: int := 10

  /** The registry key of a download, `f"{video_id}_{quality_tag}"`; the same
      expression is used on submission and on completion. */
  function DownloadKey(videoId: string, qualityTag: string): string {
    videoId + "_" + qualityTag
  }

  /** The key is the video id, an underscore and the quality tag, in that order. */
  lemma DownloadKeyParts(videoId: string, qualityTag: string)
    ensures var k := DownloadKey(videoId, qualityTag);
      && |k| == |videoId| + 1 + |qualityTag|
      && k[..|videoId|] == videoId && k[|videoId|] == '_' && k[|videoId| + 1..] == qualityTag
  {
    var k := DownloadKey(videoId, qualityTag);
    assert k[..|videoId|] == videoId;
    assert k[|videoId| + 1..] == qualityTag;
  }

  /** The key does not tell the pair apart: ("a_b", "c") and ("a", "b_c")
      share the key "a_b_c", so the second is rejected as a duplicate. */
  lemma DownloadKeyNotInjective()
    ensures ("a_b", "c") != ("a", "b_c") && DownloadKey("a_b", "c") == DownloadKey("a", "b_c")
  {
  }

  /** Among video ids of one length (YouTube's ids all have 11 characters) the
      key determines the pair. */
  lemma DownloadKeyInjectiveForEqualIdLength(v1: string, q1: string, v2: string, q2: string)
    requires |v1| == |v2|
    ensures DownloadKey(v1, q1) == DownloadKey(v2, q2) <==> v1 == v2 && q1 == q2
  {
    DownloadKeyParts(v1, q1);
    DownloadKeyParts(v2, q2);
    if DownloadKey(v1, q1) == DownloadKey(v2, q2) {
      var k := DownloadKey(v1, q1);
      assert v1 == k[..|v1|] == v2;
      assert q1 == k[|v1| + 1..] == q2;
    }
  }

  /** A progress callback; only its identity matters. */
  datatype Hook = Hook(id: nat)

  /** The caller's `ydl_opts` dict, which `add_download` changes in place: its
      `progress_hooks` entry (None while the key is absent) and the other
      options, which the manager never touches. */
  class YdlOptions {
    var progressHooks: Option<seq<Hook>>
    var others: Row

    constructor (progressHooks: Option<seq<Hook>>, others: Row)
      ensures this.progressHooks == progressHooks && this.others == others
    {
      this.progressHooks := progressHooks;
      this.others := others;
    }

    /** `ydl_opts.setdefault('progress_hooks', []).append(hook)`. */
    method AddHook(hook: Hook)
      modifies this
      ensures progressHooks == Some(old(progressHooks).GetOr([]) + [hook])
      ensures others == old(others)
    {
      progressHooks := Some(progressHooks.GetOr([]) + [hook]);
    }
  }

  /** A `task_details` record. The options object is shared with the caller. */
  datatype Task = Task(videoId: string, url: string, qualityTag: string, opts: YdlOptions) {
    function Key(): string {
      DownloadKey(videoId, qualityTag)
    }
  }

  /** Where a worker coroutine is: blocked in `queue.get()`, inside the
      semaphore running `_download_file` on a task, or cancelled by shutdown. */
  datatype Worker = Waiting | Downloading(task: Task) | Cancelled

  /** The number of workers inside the semaphore. */
  function Busy(ws: seq<Worker>): (n: nat)
    ensures n <= |ws|
  {
    if ws == [] then 0 else (if ws[0].Downloading? then 1 else 0) + Busy(ws[1..])
  }

  lemma {:induction false} BusyUpdate(ws: seq<Worker>, w: nat, x: Worker)
    requires w < |ws|
    ensures Busy(ws[w := x]) == Busy(ws) - (if ws[w].Downloading? then 1 else 0) + (if x.Downloading? then 1 else 0)
  {
    if w > 0 {
      assert ws[w := x][1..] == ws[1..][w - 1 := x];
      BusyUpdate(ws[1..], w - 1, x);
    } else {
      assert ws[w := x][1..] == ws[1..];
    }
  }

  lemma {:induction false} BusyZero(ws: seq<Worker>)
    ensures Busy(ws) == 0 <==> forall i :: 0 <= i < |ws| ==> !ws[i].Downloading?
  {
    if ws != [] {
      BusyZero(ws[1..]);
      assert forall i :: 1 <= i < |ws| ==> ws[i] == ws[1..][i - 1];
    }
  }

  /** A worker outside the semaphore leaves room for one more inside. */
  lemma {:induction false} BusyBelowWhenOneOutside(ws: seq<Worker>, w: nat)
    requires w < |ws| && !ws[w].Downloading?
    ensures Busy(ws) < |ws|
  {
    if w > 0 {
      assert ws[1..][w - 1] == ws[w];
      BusyBelowWhenOneOutside(ws[1..], w - 1);
    }
  }

  /** The keys of the queued tasks. */
  ghost function QueueKeys(q: seq<Task>): set<string> {
    set i | 0 <= i < |q| :: q[i].Key()
  }

  /** The keys of the tasks the workers are executing. */
  ghost function ExecKeys(ws: seq<Worker>): set<string> {
    set i | 0 <= i < |ws| && ws[i].Downloading? :: ws[i].task.Key()
  }

  ghost predicate QueueKeysDistinct(q: seq<Task>) {
    forall i, j :: 0 <= i < j < |q| ==> q[i].Key() != q[j].Key()
  }

  ghost predicate ExecKeysDistinct(ws: seq<Worker>) {
    forall i, j :: 0 <= i < |ws| && 0 <= j < |ws| && i != j && ws[i].Downloading? && ws[j].Downloading? ==>
      ws[i].task.Key() != ws[j].task.Key()
  }

  /** Taking the front task off a queue of distinct keys removes exactly its
      key, which no remaining task shares. */
  lemma QueuePop(q: seq<Task>)
    requires q != [] && QueueKeysDistinct(q)
    ensures QueueKeys(q) == QueueKeys(q[1..]) + {q[0].Key()}
    ensures q[0].Key() !in QueueKeys(q[1..])
    ensures QueueKeysDistinct(q[1..])
  {
    forall k | k in QueueKeys(q) ensures k in QueueKeys(q[1..]) + {q[0].Key()} {
      var i :| 0 <= i < |q| && q[i].Key() == k;
      if i > 0 {
        assert q[1..][i - 1].Key() == k;
      }
    }
    forall k | k in QueueKeys(q[1..]) ensures k in QueueKeys(q) && k != q[0].Key() {
      var i :| 0 <= i < |q[1..]| && q[1..][i].Key() == k;
      assert q[i + 1].Key() == k;
    }
  }

  /** Appending a task with a fresh key to a queue of distinct keys adds
      exactly that key and keeps the keys distinct. */
  lemma QueuePush(q: seq<Task>, t: Task)
    requires QueueKeysDistinct(q) && t.Key() !in QueueKeys(q)
    ensures QueueKeys(q + [t]) == QueueKeys(q) + {t.Key()}
    ensures QueueKeysDistinct(q + [t])
    ensures forall i :: 0 <= i < |q| ==> (q + [t])[i] == q[i]
  {
    var q' := q + [t];
    assert q'[|q|] == t;
    forall k | k in QueueKeys(q) ensures k in QueueKeys(q') {
      var i :| 0 <= i < |q| && q[i].Key() == k;
      assert q'[i] == q[i];
    }
    forall i, j | 0 <= i < j < |q'| ensures q'[i].Key() != q'[j].Key() {
      assert q'[i] == q[i];
      if j < |q| {
        assert q'[j] == q[j];
      } else {
        assert q[i].Key() in QueueKeys(q);
      }
    }
  }

  /** Enqueuing a task whose key is not in flight keeps the registry the keys
      of the queued and executing tasks, with no key twice. */
  lemma PushKeepsKeys(q: seq<Task>, ws: seq<Worker>, active: set<string>, t: Task)
    requires QueueKeysDistinct(q) && (forall i :: 0 <= i < |q| ==> q[i].Key() !in ExecKeys(ws))
    requires active == QueueKeys(q) + ExecKeys(ws) && t.Key() !in active
    ensures QueueKeysDistinct(q + [t]) && (forall i :: 0 <= i < |q + [t]| ==> (q + [t])[i].Key() !in ExecKeys(ws))
    ensures active + {t.Key()} == QueueKeys(q + [t]) + ExecKeys(ws)
  {
    QueuePush(q, t);
  }

  /** A worker that was not downloading starting a task with a fresh key adds
      exactly that key to the executing ones. */
  lemma ExecStart(ws: seq<Worker>, w: nat, t: Task)
    requires w < |ws| && !ws[w].Downloading? && ExecKeysDistinct(ws) && t.Key() !in ExecKeys(ws)
    ensures ExecKeys(ws[w := Downloading(t)]) == ExecKeys(ws) + {t.Key()}
    ensures ExecKeysDistinct(ws[w := Downloading(t)])
  {
    var ws' := ws[w := Downloading(t)];
    assert ws'[w].task.Key() == t.Key();
    forall k | k in ExecKeys(ws) ensures k in ExecKeys(ws') {
      var i :| 0 <= i < |ws| && ws[i].Downloading? && ws[i].task.Key() == k;
      assert i != w && ws'[i] == ws[i];
    }
    forall k | k in ExecKeys(ws') ensures k in ExecKeys(ws) + {t.Key()} {
      var i :| 0 <= i < |ws'| && ws'[i].Downloading? && ws'[i].task.Key() == k;
      if i != w {
        assert ws'[i] == ws[i];
      }
    }
    forall i, j | 0 <= i < |ws'| && 0 <= j < |ws'| && i != j && ws'[i].Downloading? && ws'[j].Downloading?
      ensures ws'[i].task.Key() != ws'[j].task.Key()
    {
      if i == w {
        assert ws'[j] == ws[j] && ws[j].task.Key() in ExecKeys(ws);
      } else if j == w {
        assert ws'[i] == ws[i] && ws[i].task.Key() in ExecKeys(ws);
      }
    }
  }

  class DownloadManager {
    const maxWorkers: int
    /** The size the semaphore was created with. */
    const semaphoreLimit: int
    /** The semaphore's free permits. */
    var permits: int
    /** The FIFO work queue, front first. */
    var queue: seq<Task>
    /** The queue's count of tasks put and not yet marked done. */
    var unfinished: int
    /** `active_downloads`, the registry of keys in flight. */
    var activeDownloads: set<string>
    var workers: seq<Worker>
    /** `_running`. */
    var running: bool

    /** The registry holds exactly the keys of the tasks queued or executing,
        no key is in flight twice, the queue's counter counts both, and the
        semaphore's free permits are what the executing workers leave over.
        A stopped manager has nothing in flight and no live worker. */
    ghost predicate Valid()
      reads this
    {
      && 0 < maxWorkers && semaphoreLimit == maxWorkers
      && (running ==> |workers| == maxWorkers)
      && (!running ==> queue == [] && forall i :: 0 <= i < |workers| ==> workers[i].Cancelled?)
      && QueueKeysDistinct(queue)
      && ExecKeysDistinct(workers)
      && (forall i :: 0 <= i < |queue| ==> queue[i].Key() !in ExecKeys(workers))
      && activeDownloads == QueueKeys(queue) + ExecKeys(workers)
      && unfinished == |queue| + Busy(workers)
      && permits + Busy(workers) == semaphoreLimit
    }

    constructor (maxWorkers: int)
      requires 0 < maxWorkers
      ensures Valid()
      ensures this.maxWorkers == maxWorkers && semaphoreLimit == maxWorkers && permits == maxWorkers
      ensures queue == [] && unfinished == 0 && activeDownloads == {} && workers == [] && !running
    {
      this.maxWorkers := maxWorkers;
      semaphoreLimit := maxWorkers;
      permits := maxWorkers;
      queue := [];
      unfinished := 0;
      activeDownloads := {};
      workers := [];
      running := false;
    }

    /** `DownloadManager(max_workers)`: a non-positive size raises ValueError
        (None here); otherwise a stopped manager with nothing in flight and a
        semaphore of `max_workers` permits. */
    static method Create(maxWorkers: int) returns (m: Option<DownloadManager>)
      ensures m.None? <==> maxWorkers <= 0
      ensures m.Some? ==> fresh(m.value) && m.value.Valid() && m.value.maxWorkers == maxWorkers
      ensures m.Some? ==> m.value.semaphoreLimit == maxWorkers && m.value.permits == maxWorkers
      ensures m.Some? ==> m.value.queue == [] && m.value.activeDownloads == {} && m.value.workers == []
      ensures m.Some? ==> !m.value.running && m.value.unfinished == 0
    {
      if maxWorkers <= 0 {
        m := None;
      } else {
        var d := new DownloadManager(maxWorkers);
        m := Some(d);
      }
    }

    /** At most `max_workers` downloads run at once. */
    lemma ExecutingBounded()
      requires Valid()
      ensures Busy(workers) <= maxWorkers
      ensures running ==> unfinished <= |queue| + maxWorkers
      ensures !running ==> unfinished == 0 && activeDownloads == {}
    {
      if !running {
        BusyZero(workers);
      }
    }

    /** The semaphore never makes a worker wait: it has as many permits as there
        are workers, so a worker not yet inside always finds one free. */
    lemma GateNeverBlocks(w: nat)
      requires Valid() && w < |workers| && workers[w].Waiting?
      ensures permits > 0
    {
      BusyBelowWhenOneOutside(workers, w);
    }

    /** `start()`: idempotent; otherwise sets `_running` and creates
        `max_workers` workers, all waiting on the queue. */
    method Start()
      requires Valid()
      modifies this
      ensures Valid()
      ensures old(running) ==> unchanged(this)
      ensures !old(running) ==> running && workers == seq(maxWorkers, _ => Waiting)
      ensures queue == old(queue) && activeDownloads == old(activeDownloads)
      ensures unfinished == old(unfinished) && permits == old(permits)
    {
      if running {
        return;
      }
      BusyZero(workers);
      running := true;
      workers := seq(maxWorkers, _ => Waiting);
      BusyZero(workers);
    }

    /** `add_download`: rejected on a stopped manager or a key already in
        flight; otherwise the key is registered, the progress hook (if any) is
        appended to the options' `progress_hooks` (created empty when absent),
        and exactly one task goes to the back of the queue. */
    method AddDownload(videoId: string, url: string, qualityTag: string, opts: YdlOptions, hook: Option<Hook>)
      returns (accepted: bool)
      requires Valid()
      modifies this, opts
      ensures Valid()
      ensures accepted <==> old(running) && DownloadKey(videoId, qualityTag) !in old(activeDownloads)
      ensures accepted ==> queue == old(queue) + [Task(videoId, url, qualityTag, opts)]
      ensures accepted ==> activeDownloads == old(activeDownloads) + {DownloadKey(videoId, qualityTag)}
      ensures accepted ==> unfinished == old(unfinished) + 1
      ensures !accepted ==> queue == old(queue) && activeDownloads == old(activeDownloads) && unfinished == old(unfinished)
      ensures workers == old(workers) && running == old(running) && permits == old(permits)
      ensures opts.progressHooks == if accepted && hook.Some? then Some(old(opts.progressHooks).GetOr([]) + [hook.value]) else old(opts.progressHooks)
      ensures opts.others == old(opts.others)
    {
      if !running {
        return false;
      }
      var key := DownloadKey(videoId, qualityTag);
      if key in activeDownloads {
        return false;
      }
      activeDownloads := activeDownloads + {key};
      var t := Task(videoId, url, qualityTag, opts);
      PushKeepsKeys(queue, workers, old(activeDownloads), t);
      queue := queue + [t];
      unfinished := unfinished + 1;
      assert Valid();
      if hook.Some? {
        opts.AddHook(hook.value);
      }
      return true;
    }

    /** A waiting worker's `queue.get()` returns the front task and the worker
        enters the semaphore; with an empty queue (or a worker that is not
        waiting) nothing happens. */
    method BeginDownload(w: nat) returns (started: bool)
      requires Valid() && w < |workers|
      modifies this
      ensures Valid()
      ensures started <==> old(workers[w]).Waiting? && old(queue) != []
      ensures started ==> queue == old(queue)[1..] && workers == old(workers)[w := Downloading(old(queue)[0])]
      ensures started ==> permits == old(permits) - 1
      ensures !started ==> queue == old(queue) && workers == old(workers) && permits == old(permits)
      ensures activeDownloads == old(activeDownloads) && unfinished == old(unfinished) && running == old(running)
    {
      if !workers[w].Waiting? || queue == [] {
        return false;
      }
      GateNeverBlocks(w);
      var t := queue[0];
      ghost var q := queue;
      assert t.Key() !in ExecKeys(workers);
      QueuePop(queue);
      ExecStart(workers, w, t);
      BusyUpdate(workers, w, Downloading(t));
      queue := queue[1..];
      workers := workers[w := Downloading(t)];
      permits := permits - 1;
      assert forall i :: 0 <= i < |queue| ==> queue[i] == q[i + 1] && q[i + 1].Key() in QueueKeys(queue);
      return true;
    }

    /** `_download_file` returns, whether yt-dlp succeeded or raised: its
        `finally` removes the task's key from the registry, the worker leaves
        the semaphore, calls `task_done()` and waits on the queue again.
        Nothing else changes; a worker that is not downloading does nothing. */
    method FinishDownload(w: nat, succeeded: bool)
      requires Valid() && w < |workers|
      modifies this
      ensures Valid()
      ensures old(workers[w]).Downloading? ==>
        && workers == old(workers)[w := Waiting]
        && activeDownloads == old(activeDownloads) - {old(workers[w]).task.Key()}
        && unfinished == old(unfinished) - 1
        && permits == old(permits) + 1
      ensures !old(workers[w]).Downloading? ==>
        workers == old(workers) && activeDownloads == old(activeDownloads) && unfinished == old(unfinished) && permits == old(permits)
      ensures queue == old(queue) && running == old(running)
    {
      if !workers[w].Downloading? {
        return;
      }
      var t := workers[w].task;
      var key := DownloadKey(t.videoId, t.qualityTag);
      ghost var ws := workers;
      BusyUpdate(workers, w, Waiting);
      if key in activeDownloads {
        activeDownloads := activeDownloads - {key};
      }
      workers := workers[w := Waiting];
      unfinished := unfinished - 1;
      permits := permits + 1;
      assert ExecKeys(ws) == ExecKeys(workers) + {key} by {
        assert ws[w].task.Key() == key;
        forall k | k in ExecKeys(ws) ensures k in ExecKeys(workers) + {key} {
          var i :| 0 <= i < |ws| && ws[i].Downloading? && ws[i].task.Key() == k;
          if i != w {
            assert workers[i] == ws[i];
          }
        }
      }
      assert key !in ExecKeys(workers) by {
        forall i | 0 <= i < |workers| && workers[i].Downloading? ensures workers[i].task.Key() != key {
          assert i != w && workers[i] == ws[i];
        }
      }
      assert key !in QueueKeys(queue);
    }

    /** `shutdown()`: a no-op on a stopped manager. Otherwise it waits in
        `queue.join()` while any task is unfinished (`done` is false and nothing
        changes: the caller lets workers run and calls again); once the queue
        has drained it clears `_running` and cancels every worker. */
    method Shutdown() returns (done: bool)
      requires Valid()
      modifies this
      ensures Valid()
      ensures done <==> !old(running) || old(unfinished) == 0
      ensures old(running) && old(unfinished) == 0 ==> !running && workers == seq(|old(workers)|, _ => Cancelled)
      ensures !(old(running) && old(unfinished) == 0) ==> running == old(running) && workers == old(workers)
      ensures queue == old(queue) && activeDownloads == old(activeDownloads)
      ensures unfinished == old(unfinished) && permits == old(permits)
    {
      if !running {
        return true;
      }
      if unfinished > 0 {
        return false;
      }
      BusyZero(workers);
      running := false;
      workers := seq(|workers|, _ => Cancelled);
      BusyZero(workers);
      return true;
    }
  }

  /** One schedule of the workers: the given worker takes and finishes tasks
      until the queue has drained. */
  method RunUntilIdle(m: DownloadManager, w: nat)
    requires m.Valid() && m.running && w < |m.workers| && m.workers[w].Waiting? && Busy(m.workers) == 0
    modifies m
    ensures m.Valid() && m.running && m.unfinished == 0 && m.activeDownloads == {}
    ensures |m.workers| == |old(m.workers)|
  {
    while m.queue != []
      invariant m.Valid() && m.running && w < |m.workers| && m.workers[w].Waiting? && Busy(m.workers) == 0
      decreases |m.queue|
    {
      var started := m.BeginDownload(w);
      m.FinishDownload(w, true);
    }
    BusyZero(m.workers);
  }

  /** A submission without a progress hook to a running manager, seen only
      through the registry. */
  method Submit(m: DownloadManager, videoId: string, qualityTag: string, format: string) returns (accepted: bool)
    requires m.Valid() && m.running
    modifies m
    ensures m.Valid() && m.running && m.workers == old(m.workers)
    ensures accepted <==> DownloadKey(videoId, qualityTag) !in old(m.activeDownloads)
    ensures m.activeDownloads == old(m.activeDownloads) + {DownloadKey(videoId, qualityTag)}
  {
    var opts := new YdlOptions(None, map["format" := Str(format)]);
    accepted := m.AddDownload(videoId, YoutubeService.VideoUrl(videoId), qualityTag, opts, None);
  }

  /** The script's three requests for its first video, on a running manager
      with an empty registry: 1080p, 1080p again (refused), 720p. */
  method SubmitFirstVideo(m: DownloadManager, v1: string) returns (accepted: seq<bool>)
    requires m.Valid() && m.running && m.activeDownloads == {}
    modifies m
    ensures m.Valid() && m.running && m.workers == old(m.workers)
    ensures m.activeDownloads == {DownloadKey(v1, "1080p"), DownloadKey(v1, "720p")}
    ensures accepted == [true, false, true]
  {
    DownloadKeyInjectiveForEqualIdLength(v1, "1080p", v1, "720p");
    var a1 := Submit(m, v1, "1080p", "bestvideo[height<=1080]+bestaudio/best");
    var a2 := Submit(m, v1, "1080p", "bestvideo[height<=1080]+bestaudio/best");
    var a3 := Submit(m, v1, "720p", "bestvideo[height<=720]+bestaudio/best");
    accepted := [a1, a2, a3];
  }

  /** The script's two requests for a second video of the same id length,
      480p and "medium", after the first video's two accepted requests: both
      are accepted. */
  method SubmitSecondVideo(m: DownloadManager, v1: string, v2: string) returns (accepted: seq<bool>)
    requires m.Valid() && m.running && |v1| == |v2| && v1 != v2
    requires m.activeDownloads == {DownloadKey(v1, "1080p"), DownloadKey(v1, "720p")}
    modifies m
    ensures m.Valid() && m.running && m.workers == old(m.workers)
    ensures accepted == [true, true]
  {
    DownloadKeyInjectiveForEqualIdLength(v1, "1080p", v2, "480p");
    DownloadKeyInjectiveForEqualIdLength(v1, "1080p", v2, "medium");
    DownloadKeyInjectiveForEqualIdLength(v1, "720p", v2, "480p");
    DownloadKeyInjectiveForEqualIdLength(v1, "720p", v2, "medium");
    DownloadKeyInjectiveForEqualIdLength(v2, "480p", v2, "medium");
    var a4 := Submit(m, v2, "480p", "bestvideo[height<=480]+bestaudio/best");
    var a5 := Submit(m, v2, "medium", "bestaudio[abr<128]");
    accepted := [a4, a5];
  }

  /** The script at the end of the source file: three workers, five
      submissions, of which only the repeated 1080p request of the same video
      is refused; shutdown then completes once the workers have drained the
      queue, and the manager is stopped with an empty registry. */
  method BundledScript() returns (accepted: seq<bool>, stopped: bool)
    ensures accepted == [true, false, true, true, true]
    ensures stopped
  {
    var created := DownloadManager.Create(3);
    var m := created.value;
    m.Start();
    m.ExecutingBounded();
    var v1, v2 := "BwfjneL67ZU", "YDDjAE13oKw";
    assert v1[0] != v2[0];
    var first := SubmitFirstVideo(m, v1);
    var second := SubmitSecondVideo(m, v1, v2);
    accepted := first + second;
    BusyZero(m.workers);
    stopped := DrainAndShutdown(m);
  }

  /** Once one worker has drained the queue, `shutdown()` completes: the
      manager is stopped and its registry is empty. */
  method DrainAndShutdown(m: DownloadManager) returns (stopped: bool)
    requires m.Valid() && m.running && 0 < |m.workers| && m.workers[0].Waiting? && Busy(m.workers) == 0
    modifies m
    ensures stopped && m.Valid() && !m.running && m.activeDownloads == {}
  {
    RunUntilIdle(m, 0);
    var done := m.Shutdown();
    stopped := done && !m.running && m.activeDownloads == {};
  }

  /** Submissions made while `shutdown()` waits for the queue to drain are
      still accepted; once it has returned they are refused. */
  method SubmitDuringDrain() returns (beforeStart: bool, duringDrain: bool, drainDone: bool, afterShutdown: bool)
    ensures !beforeStart && duringDrain && !drainDone && !afterShutdown
  {
    var m;
    m, beforeStart := SubmitThenStart();
    var o := new YdlOptions(None, map[]);
    var first := m.AddDownload("v1", "u1", "720p", o, None);
    drainDone := m.Shutdown();
    DownloadKeyInjectiveForEqualIdLength("v2", "720p", "v1", "720p");
    duringDrain := m.AddDownload("v2", "u2", "720p", o, Some(Hook(0)));
    BusyZero(m.workers);
    afterShutdown := StopThenSubmit(m);
  }

  /** A submission to a manager that has not been started is refused; after
      `start()` the manager is running, idle and empty. */
  method SubmitThenStart() returns (m: DownloadManager, accepted: bool)
    ensures fresh(m) && m.Valid() && m.running && !accepted
    ensures m.queue == [] && m.activeDownloads == {} && m.unfinished == 0
    ensures |m.workers| == DefaultMaxWorkers && forall i :: 0 <= i < |m.workers| ==> m.workers[i].Waiting?
  {
    var created := DownloadManager.Create(DefaultMaxWorkers);
    m := created.value;
    var o := new YdlOptions(None, map[]);
    accepted := m.AddDownload("v1", "u1", "720p", o, None);
    m.Start();
  }

  /** Once the queue has drained, `shutdown()` returns and stops the manager;
      a submission after that is refused. */
  method StopThenSubmit(m: DownloadManager) returns (accepted: bool)
    requires m.Valid() && m.running && 0 < |m.workers| && m.workers[0].Waiting? && Busy(m.workers) == 0
    modifies m
    ensures !accepted && !m.running && m.Valid()
  {
    var stopped := DrainAndShutdown(m);
    var o := new YdlOptions(None, map[]);
    accepted := m.AddDownload("v3", "u3", "720p", o, None);
  }
}
