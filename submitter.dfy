/**
 * The `Submitter` job descriptor of the qtools package: a dictionary of job
 * attributes filled in by `set_value`, `add_wait` and `add_resource`, and
 * `write_sh`, which checks the required attributes, renders a batch script
 * for a grid-engine (SGE) or PBS scheduler line by line and returns either
 * 0 or the job id found in the scheduler's reply.
 *
 * The script is modelled as the sequence of its lines, each without its
 * terminating newline; the file, the `qsub` process and its output are not
 * modelled, the reply text is a parameter.
 */
module Qtools {
  import opened Strings

  // ---------------------------------------------------------------------
  // The attribute dictionary
  // ---------------------------------------------------------------------

  /** A value stored under a key of the descriptor's dictionary. */
  datatype Value =
    | Text(text: string)                      // queue_type, sh_file, job_name, out, err
    | Texts(items: seq<string>)               // command_list, wait_for, wait_for_array
    | Table(table: map<string, seq<string>>, defaulting: bool)
      // additional_resources: a defaultdict(list) when `defaulting`, a plain dictionary otherwise

  /** Python truthiness: an empty string, list or dictionary is false. */
  predicate Truthy(v: Value) {
    match v
    case Text(s) => s != ""
    case Texts(items) => items != []
    case Table(t, _) => t != map[]
  }

  /** The keys `write_sh` insists on, in the order it checks them. */
  const RequiredKeys: seq<string> := ["queue_type", "sh_file", "command_list", "job_name"]

  /** The directive prefix of each supported scheduler. */
  const DirectivePrefixes: map<string, string> := map["SGE" := "#$", "PBS" := "#PBS"]

  /** Every attribute that `write_sh` reads has the type its documentation gives it. */
  predicate Conforms(data: map<string, Value>) {
    && ("queue_type" in data ==> data["queue_type"].Text?)
    && ("sh_file" in data ==> data["sh_file"].Text?)
    && ("job_name" in data ==> data["job_name"].Text?)
    && ("out" in data ==> data["out"].Text?)
    && ("err" in data ==> data["err"].Text?)
    && ("command_list" in data ==> data["command_list"].Texts?)
    && ("wait_for" in data ==> data["wait_for"].Texts?)
    && ("wait_for_array" in data ==> data["wait_for_array"].Texts?)
    && ("additional_resources" in data ==> data["additional_resources"].Table?)
  }

  /** The `wait_for` list, empty when the key is absent. */
  function WaitFor(data: map<string, Value>): seq<string>
    requires "wait_for" in data ==> data["wait_for"].Texts?
  {
    if "wait_for" in data then data["wait_for"].items else []
  }

  /** The `wait_for_array` list, empty when the key is absent. */
  function WaitForArray(data: map<string, Value>): seq<string>
    requires Conforms(data)
  {
    if "wait_for_array" in data then data["wait_for_array"].items else []
  }

  /** The `additional_resources` table, empty when the key is absent. */
  function Resources(data: map<string, Value>): map<string, seq<string>>
    requires "additional_resources" in data ==> data["additional_resources"].Table?
  {
    if "additional_resources" in data then data["additional_resources"].table else map[]
  }

  /** The job id `add_wait` stores: `str()` of a number or of a string. */
  datatype JobRef = Number(n: int) | Name(name: string)

  /** `str(ref)`: a numeric id is written in decimal, and its digits read back as the id. */
  function RefText(ref: JobRef): (r: string)
    ensures ref.Name? ==> r == ref.name
    ensures ref.Number? ==> r == IntText(ref.n)
    ensures ref.Number? ==> r != []
    ensures ref.Number? && ref.n >= 0 ==> AllDigits(r) && ValueOf(r) == ref.n
  {
    match ref
    case Number(n) => IntText(n)
    case Name(s) => s
  }

  // ---------------------------------------------------------------------
  // The accumulators as functions on the dictionary
  // ---------------------------------------------------------------------

  /** `set_value(**kwargs)`: every passed key takes its passed value, the others keep theirs. */
  function Assign(data: map<string, Value>, kwargs: map<string, Value>): (r: map<string, Value>)
    ensures r.Keys == data.Keys + kwargs.Keys
    ensures forall k :: k in kwargs ==> r[k] == kwargs[k]
    ensures forall k :: k in data && k !in kwargs ==> r[k] == data[k]
  {
    data + kwargs
  }

  /** `add_wait(ref)`: `str(ref)` at the end of `wait_for`, which is created empty if absent. */
  function WithWait(data: map<string, Value>, ref: JobRef): (r: map<string, Value>)
    requires "wait_for" in data ==> data["wait_for"].Texts?
    ensures r.Keys == data.Keys + {"wait_for"}
    ensures r["wait_for"].Texts?
    ensures var before, after := WaitFor(data), WaitFor(r);
      |after| == |before| + 1 && after[..|before|] == before && after[|before|] == RefText(ref)
    ensures forall k :: k in data && k != "wait_for" ==> r[k] == data[k]
  {
    var w := WaitFor(data) + [RefText(ref)];
    assert w[..|WaitFor(data)|] == WaitFor(data);
    data["wait_for" := Texts(w)]
  }

  /** The list under `kw` in a resource table, empty when absent (a `defaultdict(list)` read). */
  function ResourceValues(t: map<string, seq<string>>, kw: string): seq<string> {
    if kw in t then t[kw] else []
  }

  /**
   * `add_resource(kw, value)` fails with a key error: the caller stored a
   * plain dictionary as `additional_resources`, and it has no entry `kw`.
   */
  predicate ResourceKeyError(data: map<string, Value>, kw: string)
    requires "additional_resources" in data ==> data["additional_resources"].Table?
  {
    && "additional_resources" in data
    && !data["additional_resources"].defaulting
    && kw !in data["additional_resources"].table
  }

  /**
   * `add_resource(kw, value)`: `value` at the end of the list under `kw` in
   * `additional_resources`. The table is created as a `defaultdict(list)` when
   * absent; a list is created under `kw` only by a `defaultdict`, and a plain
   * dictionary without `kw` fails (None).
   */
  function WithResource(data: map<string, Value>, kw: string, value: string): (r: Option<map<string, Value>>)
    requires "additional_resources" in data ==> data["additional_resources"].Table?
    ensures r.None? <==> ResourceKeyError(data, kw)
    ensures r.Some? ==> r.value.Keys == data.Keys + {"additional_resources"}
    ensures r.Some? ==> r.value["additional_resources"].Table?
    ensures r.Some? ==> (r.value["additional_resources"].defaulting <==>
      "additional_resources" !in data || data["additional_resources"].defaulting)
    ensures r.Some? ==> Resources(r.value).Keys == Resources(data).Keys + {kw}
    ensures r.Some? ==> Resources(r.value)[kw] == ResourceValues(Resources(data), kw) + [value]
    ensures r.Some? ==> forall k :: k in Resources(data) && k != kw ==> Resources(r.value)[k] == Resources(data)[k]
    ensures r.Some? ==> forall k :: k in data && k != "additional_resources" ==> r.value[k] == data[k]
  {
    if ResourceKeyError(data, kw) then None
    else
      var t := Resources(data);
      var defaulting := "additional_resources" !in data || data["additional_resources"].defaulting;
      Some(data["additional_resources" := Table(t[kw := ResourceValues(t, kw) + [value]], defaulting)])
  }

  // ---------------------------------------------------------------------
  // What write_sh is given and what it returns
  // ---------------------------------------------------------------------

  /**
   * The keyword arguments of one `write_sh` call. `arrayJob` and `chunks`
   * are read by the source and then never used.
   */
  datatype Overrides = Overrides(
    arrayJob: bool,
    chunks: int,
    submit: bool,
    walltime: Option<string>,
    nodes: Option<int>,
    ppn: Option<int>,
    account: Option<string>,
    queue: Option<string>,
    resources: map<string, seq<string>>)

  /** A call with no keyword arguments. */
  const NoOverrides := Overrides(false, 1, false, None, None, None, None, None, map[])

  /** What `write_sh` reports. */
  datatype Outcome =
    | NotSubmitted                   // the script was written and not submitted: the source returns 0
    | JobId(digits: string)          // the first run of digits in the scheduler's reply
    | MissingKey(key: string)        // a required key is absent: nothing is written
    | MissingValue(key: string)      // a required key holds an empty value: nothing is written
    | BadQueueType(queueType: string)  // queue_type names no known scheduler
    | NoJobId                        // the reply holds no digits: the source fails on an empty match list

  // ---------------------------------------------------------------------
  // Validation of the required keys
  // ---------------------------------------------------------------------

  predicate Passes(data: map<string, Value>, key: string) {
    key in data && Truthy(data[key])
  }

  /** The complaint `write_sh` makes about a required key that does not pass: absent, or present but empty. */
  function Complaint(data: map<string, Value>, key: string): (r: Outcome)
    ensures r.MissingKey? || r.MissingValue?
    ensures r.MissingKey? <==> key !in data
    ensures r.key == key
  {
    if key !in data then MissingKey(key) else MissingValue(key)
  }

  /** Index of the first key that does not pass, or `|keys|` when all do. */
  function FirstFailing(data: map<string, Value>, keys: seq<string>): (i: nat)
    ensures i <= |keys|
    ensures forall j :: 0 <= j < i ==> Passes(data, keys[j])
    ensures i < |keys| ==> !Passes(data, keys[i])
  {
    if keys == [] || !Passes(data, keys[0]) then 0 else 1 + FirstFailing(data, keys[1..])
  }

  /** `e` is the complaint about required key number `i`, the first one that does not pass. */
  predicate ReportsKey(data: map<string, Value>, i: int, e: Outcome) {
    && 0 <= i < |RequiredKeys|
    && !Passes(data, RequiredKeys[i])
    && (forall j :: 0 <= j < i ==> Passes(data, RequiredKeys[j]))
    && e == Complaint(data, RequiredKeys[i])
  }

  /** The validation loop of `write_sh`: the complaint about the first failing required key. */
  function Validate(data: map<string, Value>): (r: Option<Outcome>)
    ensures r.None? <==> forall j :: 0 <= j < |RequiredKeys| ==> Passes(data, RequiredKeys[j])
    ensures r.None? <==>
      && Passes(data, "queue_type") && Passes(data, "sh_file")
      && Passes(data, "command_list") && Passes(data, "job_name")
    ensures r.Some? ==> exists i :: ReportsKey(data, i, r.value)
  {
    assert RequiredKeys[0] == "queue_type" && RequiredKeys[1] == "sh_file";
    assert RequiredKeys[2] == "command_list" && RequiredKeys[3] == "job_name";
    var i := FirstFailing(data, RequiredKeys);
    if i == |RequiredKeys| then None
    else
      assert ReportsKey(data, i, Complaint(data, RequiredKeys[i]));
      Some(Complaint(data, RequiredKeys[i]))
  }

  /** The descriptor passes validation and names a known scheduler: a script gets written. */
  predicate Renderable(data: map<string, Value>) {
    && Conforms(data)
    && Validate(data).None?
    && data["queue_type"].text in DirectivePrefixes
  }

  /** The result of `write_sh` for a descriptor, the call's options and the scheduler's reply. */
  function SubmitResult(data: map<string, Value>, ov: Overrides, reply: string): (r: Outcome)
    requires Conforms(data)
    ensures (r.MissingKey? || r.MissingValue?) <==> Validate(data).Some?
    ensures Validate(data).Some? ==> r == Validate(data).value
    ensures r.BadQueueType? <==>
      Validate(data).None? && data["queue_type"].text !in DirectivePrefixes
    ensures r.BadQueueType? ==> r.queueType == data["queue_type"].text
    ensures r.NotSubmitted? <==> Renderable(data) && !ov.submit
    ensures r.JobId? ==> Renderable(data) && ov.submit && IsFirstDigitRun(reply, r.digits)
    ensures r.NoJobId? <==>
      Renderable(data) && ov.submit && forall j :: 0 <= j < |reply| ==> !IsDigit(reply[j])
  {
    match Validate(data)
    case Some(e) => e
    case None =>
      if data["queue_type"].text !in DirectivePrefixes then BadQueueType(data["queue_type"].text)
      else if !ov.submit then NotSubmitted
      else match FirstDigitRun(reply)
        case None => NoJobId
        case Some(d) => JobId(d)
  }

  // ---------------------------------------------------------------------
  // The rendered script
  // ---------------------------------------------------------------------

  function QueueType(data: map<string, Value>): string
    requires Renderable(data)
  {
    data["queue_type"].text
  }

  function Prefix(data: map<string, Value>): string
    requires Renderable(data)
  {
    DirectivePrefixes[QueueType(data)]
  }

  function Commands(data: map<string, Value>): seq<string>
    requires Renderable(data)
  {
    data["command_list"].items
  }

  /** `out`, defaulting to the script's name plus `.out`. */
  function OutPath(data: map<string, Value>): (r: string)
    requires Renderable(data)
    ensures "out" in data ==> r == data["out"].text
    ensures "out" !in data ==> |r| >= 4 && r[..|r| - 4] == data["sh_file"].text && r[|r| - 4..] == ".out"
  {
    if "out" in data then data["out"].text else data["sh_file"].text + ".out"
  }

  /** `err`, defaulting to the script's name plus `.err`. */
  function ErrPath(data: map<string, Value>): (r: string)
    requires Renderable(data)
    ensures "err" in data ==> r == data["err"].text
    ensures "err" !in data ==> |r| >= 4 && r[..|r| - 4] == data["sh_file"].text && r[|r| - 4..] == ".err"
  {
    if "err" in data then data["err"].text else data["sh_file"].text + ".err"
  }

  /** The shebang and the directives both schedulers get, each under the scheduler's prefix. */
  function Header(data: map<string, Value>): (r: seq<string>)
    requires Renderable(data)
    ensures |r| == 5 && r[0] == "#!/bin/sh"
    ensures forall i :: 1 <= i < 5 ==> |Prefix(data)| <= |r[i]| && r[i][..|Prefix(data)|] == Prefix(data)
  {
    var p := Prefix(data);
    [ "#!/bin/sh",
      p + " -N " + data["job_name"].text,
      p + " -o " + OutPath(data),
      p + " -e " + ErrPath(data),
      p + " -V" ]
  }

  /**
   * The grid-engine hold directive: ids back to back, then a space. The line
   * holds the directive, every id's characters and nothing between them.
   */
  function HoldLine(p: string, ids: seq<string>): (r: string)
    ensures |r| == |p + " -hold_jid "| + TotalLength(ids) + 1
    ensures r[..|p + " -hold_jid "|] == p + " -hold_jid " && r[|r| - 1] == ' '
  {
    p + " -hold_jid " + Concat(ids) + " "
  }

  /**
   * The PBS dependency directive: ids separated by colons, so that ids
   * without a colon can be split back out of the line.
   */
  function DependLine(p: string, ids: seq<string>): (r: string)
    ensures |r| >= |p + " -W depend=afterok:"| && r[..|p + " -W depend=afterok:"|] == p + " -W depend=afterok:"
    ensures ids != [] && (forall i :: 0 <= i < |ids| ==> ':' !in ids[i]) ==>
      Split(r[|p + " -W depend=afterok:"|..], ':') == ids
  {
    var head := p + " -W depend=afterok:";
    SplitJoinWhenFree(ids, ':');
    assert (head + Join(":", ids))[|head|..] == Join([':'], ids);
    head + Join(":", ids)
  }

  /**
   * The PBS array dependency directive: specifications back to back, with
   * every character of them and nothing between them.
   */
  function ArrayDependLine(p: string, specs: seq<string>): (r: string)
    ensures |r| == |p + " -W depend=afterokarray:"| + TotalLength(specs)
    ensures r[..|p + " -W depend=afterokarray:"|] == p + " -W depend=afterokarray:"
    ensures r[|p + " -W depend=afterokarray:"|..] == Concat(specs)
  {
    p + " -W depend=afterokarray:" + Concat(specs)
  }

  function SgeDirectives(p: string, data: map<string, Value>): seq<string>
    requires Conforms(data)
  {
    [p + " -S /bin/sh", p + " -cwd"]
    + (if WaitFor(data) != [] then [HoldLine(p, WaitFor(data))] else [])
  }

  const DefaultWalltime := "18:00:00"
  const DefaultNodes := 1
  const DefaultPpn := 16
  const DefaultAccount := "yeo-group"
  const DefaultQueue := "home"

  /**
   * The four PBS resource requests: each option the call gives is used, and
   * each it leaves out falls back on 18:00:00, one node of 16 processors,
   * the yeo-group account and the home queue.
   */
  function PbsRequest(p: string, ov: Overrides): (r: seq<string>)
    ensures |r| == 4
    ensures r[0] == p + " -l walltime=" + (if ov.walltime.Some? then ov.walltime.value else "18:00:00")
    ensures r[1] == p + " -l nodes=" + IntText(ov.nodes.GetOr(DefaultNodes)) + ":ppn=" + IntText(ov.ppn.GetOr(DefaultPpn))
    ensures ov.nodes.None? && ov.ppn.None? ==> r[1] == p + " -l nodes=" + "1" + ":ppn=" + "16"
    ensures r[2] == p + " -A " + (if ov.account.Some? then ov.account.value else "yeo-group")
    ensures r[3] == p + " -q " + (if ov.queue.Some? then ov.queue.value else "home")
  {
    assert IntText(DefaultNodes) == "1" && IntText(DefaultPpn) == "16";
    [ p + " -l walltime=" + ov.walltime.GetOr(DefaultWalltime),
      p + " -l nodes=" + IntText(ov.nodes.GetOr(DefaultNodes)) + ":ppn=" + IntText(ov.ppn.GetOr(DefaultPpn)),
      p + " -A " + ov.account.GetOr(DefaultAccount),
      p + " -q " + ov.queue.GetOr(DefaultQueue) ]
  }

  /** The PBS dependency directives, each present only when its list is non-empty. */
  function PbsDependencies(p: string, data: map<string, Value>): seq<string>
    requires Conforms(data)
  {
    (if WaitFor(data) != [] then [DependLine(p, WaitFor(data))] else [])
    + (if WaitForArray(data) != [] then [ArrayDependLine(p, WaitForArray(data))] else [])
  }

  function PbsDirectives(p: string, data: map<string, Value>, ov: Overrides): seq<string>
    requires Conforms(data)
  {
    PbsRequest(p, ov) + PbsDependencies(p, data)
  }

  /** The lines PBS scripts get between the directives and the commands. */
  const PbsTrailer: seq<string> :=
    ["", "# Go to the directory from which the script was called", "cd $PBS_O_WORKDIR"]

  function DialectDirectives(data: map<string, Value>, ov: Overrides): seq<string>
    requires Renderable(data)
  {
    if QueueType(data) == "SGE" then SgeDirectives(Prefix(data), data)
    else PbsDirectives(Prefix(data), data, ov)
  }

  function Trailer(data: map<string, Value>): seq<string>
    requires Renderable(data)
  {
    if QueueType(data) == "SGE" then [] else PbsTrailer
  }

  /** One extra-resource directive: the key, then the whole list of its values in brackets. */
  function ResourceLine(p: string, key: string, values: seq<string>): (r: string)
    ensures |r| > |p + " " + key + " "| && r[..|p + " " + key + " "|] == p + " " + key + " "
    ensures r[|p + " " + key + " "|] == '[' && r[|r| - 1] == ']'
  {
    p + " " + key + " " + ListText(values)
  }

  /** `order` lists the keys of a table, each exactly once: a possible dictionary iteration order. */
  predicate IsEnumeration(order: seq<string>, keys: set<string>) {
    multiset(order) == multiset(keys)
  }

  /** The resource directives of `t`, one per key, visiting the keys in `order`. */
  function ResourceLines(p: string, t: map<string, seq<string>>, order: seq<string>): (r: seq<string>)
    requires forall i :: 0 <= i < |order| ==> order[i] in t
    ensures |r| == |order|
    ensures forall i :: 0 <= i < |order| ==> r[i] == ResourceLine(p, order[i], t[order[i]])
  {
    if order == [] then []
    else ResourceLines(p, t, order[..|order| - 1]) + [ResourceLine(p, order[|order| - 1], t[order[|order| - 1]])]
  }

  lemma EnumerationMembers(order: seq<string>, keys: set<string>)
    requires IsEnumeration(order, keys)
    ensures forall i :: 0 <= i < |order| ==> order[i] in keys
  {
    forall i | 0 <= i < |order| ensures order[i] in keys {
      assert order[i] in multiset(order);
    }
  }

  /**
   * Every line between the common header and the commands: the scheduler's
   * own directives, the descriptor's resources, the call's resources and,
   * for PBS, the change to the submission directory.
   */
  function Directives(data: map<string, Value>, ov: Overrides, dataOrder: seq<string>, callOrder: seq<string>): seq<string>
    requires Renderable(data)
    requires forall i :: 0 <= i < |dataOrder| ==> dataOrder[i] in Resources(data)
    requires forall i :: 0 <= i < |callOrder| ==> callOrder[i] in ov.resources
  {
    DialectDirectives(data, ov)
    + ResourceLines(Prefix(data), Resources(data), dataOrder)
    + ResourceLines(Prefix(data), ov.resources, callOrder)
    + Trailer(data)
  }

  /**
   * The whole script `write_sh` writes, given the order in which the two
   * resource tables are visited.
   */
  function Script(data: map<string, Value>, ov: Overrides, dataOrder: seq<string>, callOrder: seq<string>): (lines: seq<string>)
    requires Renderable(data)
    requires IsEnumeration(dataOrder, Resources(data).Keys)
    requires IsEnumeration(callOrder, ov.resources.Keys)
    ensures |lines| >= 5 + |Commands(data)| + 1
    ensures lines[..5] == Header(data)
    ensures lines[|lines| - |Commands(data)| - 1..] == Commands(data) + [""]
  {
    EnumerationMembers(dataOrder, Resources(data).Keys);
    EnumerationMembers(callOrder, ov.resources.Keys);
    var body := Commands(data) + [""];
    var lines := Header(data) + Directives(data, ov, dataOrder, callOrder) + body;
    assert lines[..5] == Header(data);
    assert lines[|lines| - |body|..] == body;
    lines
  }

  /** The script is its header, the lines between, and the body. */
  lemma ScriptSections(data: map<string, Value>, ov: Overrides, dataOrder: seq<string>, callOrder: seq<string>)
    requires Renderable(data)
    requires IsEnumeration(dataOrder, Resources(data).Keys)
    requires IsEnumeration(callOrder, ov.resources.Keys)
    ensures forall i :: 0 <= i < |dataOrder| ==> dataOrder[i] in Resources(data)
    ensures forall i :: 0 <= i < |callOrder| ==> callOrder[i] in ov.resources
    ensures Script(data, ov, dataOrder, callOrder)
      == Header(data) + Directives(data, ov, dataOrder, callOrder) + (Commands(data) + [""])
  {
    EnumerationMembers(dataOrder, Resources(data).Keys);
    EnumerationMembers(callOrder, ov.resources.Keys);
  }

  /** The resource directives of a table, visiting its keys in some order of the loop's choosing. */
  method EmitResources(p: string, t: map<string, seq<string>>) returns (out: seq<string>, order: seq<string>)
    ensures IsEnumeration(order, t.Keys)
    ensures forall i :: 0 <= i < |order| ==> order[i] in t
    ensures out == ResourceLines(p, t, order)
  {
    out, order := [], [];
    var pending := t.Keys;
    while pending != {}
      invariant pending <= t.Keys
      invariant multiset(order) + multiset(pending) == multiset(t.Keys)
      invariant forall i :: 0 <= i < |order| ==> order[i] in t && order[i] !in pending
      invariant out == ResourceLines(p, t, order)
      decreases pending
    {
      var key :| key in pending;
      out := out + [ResourceLine(p, key, t[key])];
      order := order + [key];
      assert multiset(pending) == multiset(pending - {key}) + multiset{key};
      pending := pending - {key};
    }
  }

  /**
   * The grid-engine part of `write_sh`: shell, working directory, the hold
   * directive when there is something to wait for, then the resources of the
   * descriptor and those of the call.
   */
  method EmitSge(p: string, data: map<string, Value>, ov: Overrides)
    returns (out: seq<string>, dataOrder: seq<string>, callOrder: seq<string>)
    requires Conforms(data)
    ensures IsEnumeration(dataOrder, Resources(data).Keys) && IsEnumeration(callOrder, ov.resources.Keys)
    ensures forall i :: 0 <= i < |dataOrder| ==> dataOrder[i] in Resources(data)
    ensures forall i :: 0 <= i < |callOrder| ==> callOrder[i] in ov.resources
    ensures out == SgeDirectives(p, data)
      + ResourceLines(p, Resources(data), dataOrder) + ResourceLines(p, ov.resources, callOrder)
  {
    out := [p + " -S /bin/sh"];
    out := out + [p + " -cwd"];
    if "wait_for" in data && data["wait_for"].items != [] {
      out := out + [HoldLine(p, data["wait_for"].items)];
    }
    assert out == SgeDirectives(p, data);
    var fromData, fromCall;
    fromData, dataOrder := EmitResources(p, Resources(data));
    out := out + fromData;
    fromCall, callOrder := EmitResources(p, ov.resources);
    out := out + fromCall;
  }

  /**
   * The PBS part of `write_sh`: walltime, nodes and processors per node,
   * account, queue, the two dependency directives when there is something to
   * wait for, the resources, and the change to the submission directory.
   */
  method EmitPbs(p: string, data: map<string, Value>, ov: Overrides,
                 walltime: string, nodes: int, ppn: int, account: string, queue: string)
    returns (out: seq<string>, dataOrder: seq<string>, callOrder: seq<string>)
    requires Conforms(data)
    requires walltime == ov.walltime.GetOr(DefaultWalltime)
    requires nodes == ov.nodes.GetOr(DefaultNodes) && ppn == ov.ppn.GetOr(DefaultPpn)
    requires account == ov.account.GetOr(DefaultAccount) && queue == ov.queue.GetOr(DefaultQueue)
    ensures IsEnumeration(dataOrder, Resources(data).Keys) && IsEnumeration(callOrder, ov.resources.Keys)
    ensures forall i :: 0 <= i < |dataOrder| ==> dataOrder[i] in Resources(data)
    ensures forall i :: 0 <= i < |callOrder| ==> callOrder[i] in ov.resources
    ensures out == PbsDirectives(p, data, ov)
      + ResourceLines(p, Resources(data), dataOrder) + ResourceLines(p, ov.resources, callOrder)
      + PbsTrailer
  {
    out := EmitPbsRequest(p, ov, walltime, nodes, ppn, account, queue);
    var dependencies := EmitPbsDependencies(p, data);
    out := out + dependencies;
    var fromData, fromCall;
    fromData, dataOrder := EmitResources(p, Resources(data));
    out := out + fromData;
    fromCall, callOrder := EmitResources(p, ov.resources);
    out := out + fromCall;
    out := out + PbsTrailer;
  }

  /** The four PBS resource requests, from the options as resolved against their defaults. */
  method EmitPbsRequest(p: string, ov: Overrides, walltime: string, nodes: int, ppn: int, account: string, queue: string)
    returns (out: seq<string>)
    requires walltime == ov.walltime.GetOr(DefaultWalltime)
    requires nodes == ov.nodes.GetOr(DefaultNodes) && ppn == ov.ppn.GetOr(DefaultPpn)
    requires account == ov.account.GetOr(DefaultAccount) && queue == ov.queue.GetOr(DefaultQueue)
    ensures out == PbsRequest(p, ov)
  {
    out := [p + " -l walltime=" + walltime];
    out := out + [p + " -l nodes=" + IntText(nodes) + ":ppn=" + IntText(ppn)];
    out := out + [p + " -A " + account];
    out := out + [p + " -q " + queue];
  }

  /** The PBS dependency directives, each written only when its list is non-empty. */
  method EmitPbsDependencies(p: string, data: map<string, Value>) returns (out: seq<string>)
    requires Conforms(data)
    ensures out == PbsDependencies(p, data)
  {
    out := [];
    if "wait_for" in data && data["wait_for"].items != [] {
      out := out + [DependLine(p, data["wait_for"].items)];
    }
    if "wait_for_array" in data && data["wait_for_array"].items != [] {
      out := out + [ArrayDependLine(p, data["wait_for_array"].items)];
    }
  }

  /** The shebang, then the job name, output and error files and the environment export. */
  method EmitHeader(data: map<string, Value>) returns (lines: seq<string>)
    requires Renderable(data)
    ensures lines == Header(data)
  {
    var shFile := data["sh_file"].text;
    var outFile := if "out" in data then data["out"].text else shFile + ".out";
    var errFile := if "err" in data then data["err"].text else shFile + ".err";
    var p := DirectivePrefixes[data["queue_type"].text];
    lines := ["#!/bin/sh"];
    lines := lines + [p + " -N " + data["job_name"].text];
    lines := lines + [p + " -o " + outFile];
    lines := lines + [p + " -e " + errFile];
    lines := lines + [p + " -V"];
  }

  /** The body of the script: every command on its own line, in order, then a blank line. */
  method EmitCommands(commands: seq<string>) returns (out: seq<string>)
    ensures out == commands + [""]
  {
    out := [];
    var k := 0;
    while k < |commands|
      invariant 0 <= k <= |commands|
      invariant out == commands[..k]
    {
      out := out + [commands[k]];
      k := k + 1;
    }
    out := out + [""];
  }

  // ---------------------------------------------------------------------
  // The descriptor object
  // ---------------------------------------------------------------------

  class Submitter {
    /** `self.data`: the job's attributes by name. */
    var data: map<string, Value>

    /** `Submitter(**kwargs)`: the dictionary starts as the keyword arguments. */
    constructor (kwargs: map<string, Value>)
      ensures data == kwargs
    {
      data := kwargs;
    }

    /** `set_value(**kwargs)`, one key at a time. */
    method SetValue(kwargs: map<string, Value>)
      modifies this
      ensures data == Assign(old(data), kwargs)
    {
      var pending := kwargs.Keys;
      while pending != {}
        invariant pending <= kwargs.Keys
        invariant data.Keys == old(data).Keys + (kwargs.Keys - pending)
        invariant forall k :: k in kwargs && k !in pending ==> data[k] == kwargs[k]
        invariant forall k :: k in old(data) && (k !in kwargs || k in pending) ==> data[k] == old(data)[k]
        decreases pending
      {
        var key :| key in pending;
        data := data[key := kwargs[key]];
        pending := pending - {key};
      }
    }

    /** `add_wait(ref)`. */
    method AddWait(ref: JobRef)
      requires "wait_for" in data ==> data["wait_for"].Texts?
      modifies this
      ensures data == WithWait(old(data), ref)
    {
      if "wait_for" !in data {
        data := data["wait_for" := Texts([])];
      }
      data := data["wait_for" := Texts(data["wait_for"].items + [RefText(ref)])];
    }

    /**
     * `add_resource(kw, value)`. `raised` reports the key error of a plain
     * dictionary without `kw`; the dictionary is then left as it was.
     */
    method AddResource(kw: string, value: string) returns (raised: bool)
      requires "additional_resources" in data ==> data["additional_resources"].Table?
      modifies this
      ensures raised <==> WithResource(old(data), kw, value).None?
      ensures data == WithResource(old(data), kw, value).GetOr(old(data))
    {
      if "additional_resources" !in data {
        data := data["additional_resources" := Table(map[], true)];
      }
      var resources := data["additional_resources"];
      if kw !in resources.table && !resources.defaulting {
        return true;
      }
      var t := resources.table;
      var values := if kw in t then t[kw] else [];
      data := data["additional_resources" := Table(t[kw := values + [value]], resources.defaulting)];
      raised := false;
    }

    /** The validation loop of `write_sh`: required keys in order, the first failing one reported. */
    method CheckRequired() returns (problem: Option<Outcome>)
      ensures problem == Validate(data)
    {
      var i := 0;
      while i < |RequiredKeys|
        invariant 0 <= i <= |RequiredKeys|
        invariant forall j :: 0 <= j < i ==> Passes(data, RequiredKeys[j])
      {
        var key := RequiredKeys[i];
        if !Passes(data, key) {
          assert FirstFailing(data, RequiredKeys) == i;
        }
        if key !in data {
          return Some(MissingKey(key));
        }
        if !Truthy(data[key]) {
          return Some(MissingValue(key));
        }
        i := i + 1;
      }
      return None;
    }

    /** The lines `write_sh` writes for a descriptor that passed validation. */
    method Render(ov: Overrides) returns (lines: seq<string>, dataOrder: seq<string>, callOrder: seq<string>)
      requires Renderable(data)
      ensures IsEnumeration(dataOrder, Resources(data).Keys)
      ensures IsEnumeration(callOrder, ov.resources.Keys)
      ensures lines == Script(data, ov, dataOrder, callOrder)
    {
      var walltime := ov.walltime.GetOr(DefaultWalltime);
      var nodes := ov.nodes.GetOr(DefaultNodes);
      var ppn := ov.ppn.GetOr(DefaultPpn);
      var account := ov.account.GetOr(DefaultAccount);
      var queue := ov.queue.GetOr(DefaultQueue);

      var queueType := data["queue_type"].text;
      var p := DirectivePrefixes[queueType];
      lines := EmitHeader(data);

      var section;
      if queueType == "SGE" {
        section, dataOrder, callOrder := EmitSge(p, data, ov);
        assert DialectDirectives(data, ov) == SgeDirectives(p, data) && Trailer(data) == [];
      } else {
        section, dataOrder, callOrder := EmitPbs(p, data, ov, walltime, nodes, ppn, account, queue);
        assert DialectDirectives(data, ov) == PbsDirectives(p, data, ov) && Trailer(data) == PbsTrailer;
      }
      ScriptSections(data, ov, dataOrder, callOrder);
      assert section == Directives(data, ov, dataOrder, callOrder);
      lines := lines + section;
      var body := EmitCommands(data["command_list"].items);
      lines := lines + body;
    }

    /**
     * `write_sh(**kwargs)`: the lines of the script it writes and what it
     * returns, given `reply`, the text `qsub` prints when the call submits.
     * The dictionary is visited in an order the model leaves open; the last two
     * results name the order that was taken.
     */
    method WriteSh(ov: Overrides, reply: string)
      returns (result: Outcome, lines: seq<string>, dataOrder: seq<string>, callOrder: seq<string>)
      requires Conforms(data)
      ensures result == SubmitResult(data, ov, reply)
      ensures !Renderable(data) ==> lines == []
      ensures Renderable(data) ==>
        && IsEnumeration(dataOrder, Resources(data).Keys)
        && IsEnumeration(callOrder, ov.resources.Keys)
        && lines == Script(data, ov, dataOrder, callOrder)
    {
      var problem := CheckRequired();
      if problem.Some? {
        return problem.value, [], [], [];
      }
      var queueType := data["queue_type"].text;
      if queueType !in DirectivePrefixes {
        return BadQueueType(queueType), [], [], [];
      }
      lines, dataOrder, callOrder := Render(ov);
      if ov.submit {
        var id := FirstDigitRun(reply);
        result := if id.Some? then JobId(id.value) else NoJobId;
      } else {
        result := NotSubmitted;
      }
    }
  }
}
