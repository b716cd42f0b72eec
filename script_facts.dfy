/**
 * Properties of the scripts `write_sh` renders and of the values it
 * returns, stated over the specification functions of module Qtools.
 */
module ScriptFacts {
  import opened Strings
  import opened Qtools

  // ---------------------------------------------------------------------
  // Resource directives and the order of dictionary iteration
  // ---------------------------------------------------------------------

  lemma ResourceLinesAppend(p: string, t: map<string, seq<string>>, a: seq<string>, b: seq<string>)
    requires forall i :: 0 <= i < |a| ==> a[i] in t
    requires forall i :: 0 <= i < |b| ==> b[i] in t
    ensures forall i :: 0 <= i < |a + b| ==> (a + b)[i] in t
    ensures ResourceLines(p, t, a + b) == ResourceLines(p, t, a) + ResourceLines(p, t, b)
  {
    assert forall i :: 0 <= i < |a + b| ==> (a + b)[i] in t by {
      forall i | 0 <= i < |a + b| ensures (a + b)[i] in t {
        if i >= |a| { assert (a + b)[i] == b[i - |a|]; }
      }
    }
    var l, r := ResourceLines(p, t, a + b), ResourceLines(p, t, a) + ResourceLines(p, t, b);
    forall i | 0 <= i < |l| ensures l[i] == r[i] {
      if i >= |a| { assert (a + b)[i] == b[i - |a|]; }
    }
  }

  /** Taking the same element out of two equal multisets leaves equal multisets. */
  lemma MultisetCancel<T>(a: seq<T>, before: seq<T>, after: seq<T>, k: T)
    requires multiset(a + [k]) == multiset(before + [k] + after)
    ensures multiset(a) == multiset(before + after)
  {
    assert multiset(a) + multiset{k} == multiset(before + after) + multiset{k};
    forall x ensures multiset(a)[x] == multiset(before + after)[x] {
      assert (multiset(a) + multiset{k})[x] == (multiset(before + after) + multiset{k})[x];
    }
  }

  /**
   * Two orders of the same elements drawn from `keys`: the last element of
   * the first splits the second into the elements before and after it, and
   * what remains of each order is again the same elements.
   */
  lemma PickLast<T>(o1: seq<T>, o2: seq<T>, keys: set<T>) returns (rest: seq<T>, before: seq<T>, after: seq<T>)
    requires o1 != [] && multiset(o1) == multiset(o2)
    requires forall i :: 0 <= i < |o1| ==> o1[i] in keys
    requires forall i :: 0 <= i < |o2| ==> o2[i] in keys
    ensures o1 == rest + [o1[|o1| - 1]] && o2 == before + [o1[|o1| - 1]] + after
    ensures multiset(rest) == multiset(before + after)
    ensures forall i :: 0 <= i < |rest| ==> rest[i] in keys
    ensures forall i :: 0 <= i < |before| ==> before[i] in keys
    ensures forall i :: 0 <= i < |after| ==> after[i] in keys
  {
    var k := o1[|o1| - 1];
    rest := o1[..|o1| - 1];
    assert o1 == rest + [k];
    assert k in multiset(o2);
    var j :| 0 <= j < |o2| && o2[j] == k;
    before, after := o2[..j], o2[j + 1..];
    assert o2 == before + [k] + after;
    MultisetCancel(rest, before, after, k);
  }

  /** Putting the same block into two permutations of each other keeps them permutations. */
  lemma MultisetInsert<T>(x: seq<T>, before: seq<T>, after: seq<T>, l: seq<T>)
    requires multiset(x) == multiset(before + after)
    ensures multiset(x + l) == multiset(before + l + after)
  {
  }

  /** The directives for `before`, `k`, `after` are those of the three parts, in turn. */
  lemma ResourceLinesAround(p: string, t: map<string, seq<string>>, before: seq<string>, k: string, after: seq<string>)
    requires forall i :: 0 <= i < |before| ==> before[i] in t
    requires forall i :: 0 <= i < |after| ==> after[i] in t
    requires k in t
    ensures forall i :: 0 <= i < |before + after| ==> (before + after)[i] in t
    ensures forall i :: 0 <= i < |before + [k] + after| ==> (before + [k] + after)[i] in t
    ensures ResourceLines(p, t, before + after) == ResourceLines(p, t, before) + ResourceLines(p, t, after)
    ensures ResourceLines(p, t, before + [k] + after)
      == ResourceLines(p, t, before) + [ResourceLine(p, k, t[k])] + ResourceLines(p, t, after)
  {
    ResourceLinesAppend(p, t, before, after);
    ResourceLinesAppend(p, t, before, [k]);
    ResourceLinesAppend(p, t, before + [k], after);
  }

  /**
   * Visiting the keys of a table in another order permutes its resource
   * directives and changes nothing else about them.
   */
  lemma {:induction false} ResourceLinesPermutation(p: string, t: map<string, seq<string>>, o1: seq<string>, o2: seq<string>)
    requires forall i :: 0 <= i < |o1| ==> o1[i] in t
    requires forall i :: 0 <= i < |o2| ==> o2[i] in t
    requires multiset(o1) == multiset(o2)
    ensures multiset(ResourceLines(p, t, o1)) == multiset(ResourceLines(p, t, o2))
    decreases |o1|
  {
    if o1 == [] {
      assert |o2| == |multiset(o2)| == 0;
    } else {
      var k := o1[|o1| - 1];
      var rest, before, after := PickLast(o1, o2, t.Keys);
      assert ResourceLines(p, t, o1) == ResourceLines(p, t, rest) + [ResourceLine(p, k, t[k])];
      ResourceLinesAround(p, t, before, k, after);
      ResourceLinesPermutation(p, t, rest, before + after);
      MultisetInsert(ResourceLines(p, t, rest), ResourceLines(p, t, before),
                     ResourceLines(p, t, after), [ResourceLine(p, k, t[k])]);
    }
  }

  /**
   * The key order the dictionary happens to be visited in changes neither
   * how many lines the script has nor which lines it holds, counted with
   * repetition. (`SgeLayout` and `PbsLayout` fix every line outside the two
   * resource blocks for any order.)
   */
  lemma ResourceOrderIrrelevant(data: map<string, Value>, ov: Overrides,
                                o1: seq<string>, o2: seq<string>, q1: seq<string>, q2: seq<string>)
    requires Renderable(data)
    requires IsEnumeration(o1, Resources(data).Keys) && IsEnumeration(q1, Resources(data).Keys)
    requires IsEnumeration(o2, ov.resources.Keys) && IsEnumeration(q2, ov.resources.Keys)
    ensures |Script(data, ov, o1, o2)| == |Script(data, ov, q1, q2)|
    ensures multiset(Script(data, ov, o1, o2)) == multiset(Script(data, ov, q1, q2))
  {
    ScriptSections(data, ov, o1, o2);
    ScriptSections(data, ov, q1, q2);
    var p := Prefix(data);
    ResourceLinesPermutation(p, Resources(data), o1, q1);
    ResourceLinesPermutation(p, ov.resources, o2, q2);
    MultisetSwap(Header(data), DialectDirectives(data, ov),
                 ResourceLines(p, Resources(data), o1), ResourceLines(p, ov.resources, o2),
                 ResourceLines(p, Resources(data), q1), ResourceLines(p, ov.resources, q2),
                 Trailer(data), Commands(data) + [""]);
  }

  /** Permuting two inner blocks of a concatenation permutes the whole. */
  lemma MultisetSwap<T>(h: seq<T>, d: seq<T>, r1: seq<T>, r2: seq<T>, q1: seq<T>, q2: seq<T>, t: seq<T>, b: seq<T>)
    requires multiset(r1) == multiset(q1) && multiset(r2) == multiset(q2)
    ensures |h + (d + r1 + r2 + t) + b| == |h + (d + q1 + q2 + t) + b|
    ensures multiset(h + (d + r1 + r2 + t) + b) == multiset(h + (d + q1 + q2 + t) + b)
  {
    assert |r1| == |multiset(r1)| == |q1|;
    assert |r2| == |multiset(r2)| == |q2|;
  }

  /** A table visited in an enumeration of its keys gets a directive for every key. */
  lemma EveryKeyListed(p: string, t: map<string, seq<string>>, order: seq<string>)
    requires IsEnumeration(order, t.Keys)
    ensures forall i :: 0 <= i < |order| ==> order[i] in t
    ensures forall k :: k in t ==> ResourceLine(p, k, t[k]) in ResourceLines(p, t, order)
  {
    EnumerationMembers(order, t.Keys);
    forall k | k in t ensures ResourceLine(p, k, t[k]) in ResourceLines(p, t, order) {
      assert k in multiset(order);
      var i :| 0 <= i < |order| && order[i] == k;
      assert ResourceLines(p, t, order)[i] == ResourceLine(p, k, t[k]);
    }
  }

  // ---------------------------------------------------------------------
  // Layout of the two dialects
  // ---------------------------------------------------------------------

  /**
   * Every script opens with the shebang, then the job name, the output and
   * error files (the script's name plus `.out` and `.err` unless set) and the
   * environment export, all under the scheduler's own directive prefix.
   */
  lemma ScriptHeader(data: map<string, Value>, ov: Overrides, o1: seq<string>, o2: seq<string>)
    requires Renderable(data)
    requires IsEnumeration(o1, Resources(data).Keys) && IsEnumeration(o2, ov.resources.Keys)
    ensures var s, p := Script(data, ov, o1, o2), Prefix(data);
      && s[0] == "#!/bin/sh"
      && s[1] == p + " -N " + data["job_name"].text
      && s[2] == p + " -o " + (if "out" in data then data["out"].text else data["sh_file"].text + ".out")
      && s[3] == p + " -e " + (if "err" in data then data["err"].text else data["sh_file"].text + ".err")
      && s[4] == p + " -V"
  {
    var s, h := Script(data, ov, o1, o2), Header(data);
    assert s[..5] == h;
    assert s[0] == h[0] && s[1] == h[1] && s[2] == h[2] && s[3] == h[3] && s[4] == h[4];
  }

  /**
   * A script made of a header, its directives (the dialect's fixed
   * directives `f`, the dependencies `d`, the two resource blocks and the
   * trailer `t`) and a body: `f` sits right after the header and the rest
   * follows it.
   */
  lemma Regroup<T>(s: seq<T>, header: seq<T>, f: seq<T>, d: seq<T>, r1: seq<T>, r2: seq<T>, t: seq<T>, body: seq<T>)
    requires s == header + (f + d + r1 + r2 + t) + body
    ensures |header| + |f| <= |s|
    ensures s[|header|..|header| + |f|] == f
    ensures s[|header| + |f|..] == d + r1 + r2 + t + body
  {
    assert s == header + f + (d + r1 + r2 + t + body);
  }

  /**
   * A grid-engine script: its directives start with `#$`; after the common
   * header come `-S /bin/sh` and `-cwd`, then the hold directive exactly
   * when `wait_for` is non-empty, then the resources, the commands and a
   * blank line.
   */
  lemma SgeLayout(data: map<string, Value>, ov: Overrides, o1: seq<string>, o2: seq<string>)
    requires Renderable(data) && QueueType(data) == "SGE"
    requires IsEnumeration(o1, Resources(data).Keys) && IsEnumeration(o2, ov.resources.Keys)
    ensures forall i :: 0 <= i < |o1| ==> o1[i] in Resources(data)
    ensures forall i :: 0 <= i < |o2| ==> o2[i] in ov.resources
    ensures Prefix(data) == "#$"
    ensures var s, p := Script(data, ov, o1, o2), Prefix(data);
      && |s| >= 7
      && s[5] == p + " -S /bin/sh"
      && s[6] == p + " -cwd"
      && s[7..] == (if WaitFor(data) != [] then [HoldLine(p, WaitFor(data))] else [])
                   + ResourceLines(p, Resources(data), o1)
                   + ResourceLines(p, ov.resources, o2)
                   + (Commands(data) + [""])
  {
    SgeScript(data, ov, o1, o2);
    var p, s := Prefix(data), Script(data, ov, o1, o2);
    var fixed := [p + " -S /bin/sh", p + " -cwd"];
    var hold := if WaitFor(data) != [] then [HoldLine(p, WaitFor(data))] else [];
    var r1, r2 := ResourceLines(p, Resources(data), o1), ResourceLines(p, ov.resources, o2);
    Regroup(s, Header(data), fixed, hold, r1, r2, [], Commands(data) + [""]);
    assert s[5] == s[5..7][0] && s[6] == s[5..7][1];
    assert hold + r1 + r2 + [] == hold + r1 + r2;
  }

  /** A grid-engine script as one concatenation of its sections. */
  lemma SgeScript(data: map<string, Value>, ov: Overrides, o1: seq<string>, o2: seq<string>)
    requires Renderable(data) && QueueType(data) == "SGE"
    requires IsEnumeration(o1, Resources(data).Keys) && IsEnumeration(o2, ov.resources.Keys)
    ensures forall i :: 0 <= i < |o1| ==> o1[i] in Resources(data)
    ensures forall i :: 0 <= i < |o2| ==> o2[i] in ov.resources
    ensures Prefix(data) == "#$"
    ensures |Header(data)| == 5
    ensures Script(data, ov, o1, o2) == Header(data)
      + ([Prefix(data) + " -S /bin/sh", Prefix(data) + " -cwd"]
         + (if WaitFor(data) != [] then [HoldLine(Prefix(data), WaitFor(data))] else [])
         + ResourceLines(Prefix(data), Resources(data), o1) + ResourceLines(Prefix(data), ov.resources, o2)
         + [])
      + (Commands(data) + [""])
  {
    ScriptSections(data, ov, o1, o2);
    var p := Prefix(data);
    var fixed := [p + " -S /bin/sh", p + " -cwd"];
    var hold := if WaitFor(data) != [] then [HoldLine(p, WaitFor(data))] else [];
    assert DialectDirectives(data, ov) == fixed + hold;
    assert Trailer(data) == [];
    assert p == "#$";
  }

  /**
   * A PBS script: its directives start with `#PBS`; after the common header
   * come the four resource requests, then the `afterok` dependency exactly
   * when `wait_for` is non-empty and the `afterokarray` dependency exactly
   * when `wait_for_array` is, then the resources, the change to the
   * submission directory, the commands and a blank line.
   */
  lemma PbsLayout(data: map<string, Value>, ov: Overrides, o1: seq<string>, o2: seq<string>)
    requires Renderable(data) && QueueType(data) == "PBS"
    requires IsEnumeration(o1, Resources(data).Keys) && IsEnumeration(o2, ov.resources.Keys)
    ensures forall i :: 0 <= i < |o1| ==> o1[i] in Resources(data)
    ensures forall i :: 0 <= i < |o2| ==> o2[i] in ov.resources
    ensures Prefix(data) == "#PBS"
    ensures var s, p := Script(data, ov, o1, o2), Prefix(data);
      && |s| >= 9
      && s[5..9] == PbsRequest(p, ov)
      && s[9..] == PbsDependencies(p, data)
                   + ResourceLines(p, Resources(data), o1)
                   + ResourceLines(p, ov.resources, o2)
                   + PbsTrailer
                   + (Commands(data) + [""])
  {
    PbsScript(data, ov, o1, o2);
    var p := Prefix(data);
    assert |Header(data)| + |PbsRequest(p, ov)| == 9;
    Regroup(Script(data, ov, o1, o2), Header(data), PbsRequest(p, ov), PbsDependencies(p, data),
            ResourceLines(p, Resources(data), o1), ResourceLines(p, ov.resources, o2),
            PbsTrailer, Commands(data) + [""]);
  }

  /** A PBS script as one concatenation of its sections. */
  lemma PbsScript(data: map<string, Value>, ov: Overrides, o1: seq<string>, o2: seq<string>)
    requires Renderable(data) && QueueType(data) == "PBS"
    requires IsEnumeration(o1, Resources(data).Keys) && IsEnumeration(o2, ov.resources.Keys)
    ensures forall i :: 0 <= i < |o1| ==> o1[i] in Resources(data)
    ensures forall i :: 0 <= i < |o2| ==> o2[i] in ov.resources
    ensures Prefix(data) == "#PBS"
    ensures |Header(data)| == 5 && |PbsRequest(Prefix(data), ov)| == 4
    ensures Script(data, ov, o1, o2) == Header(data)
      + (PbsRequest(Prefix(data), ov) + PbsDependencies(Prefix(data), data)
         + ResourceLines(Prefix(data), Resources(data), o1) + ResourceLines(Prefix(data), ov.resources, o2)
         + PbsTrailer)
      + (Commands(data) + [""])
  {
    ScriptSections(data, ov, o1, o2);
    var p := Prefix(data);
    assert DialectDirectives(data, ov) == PbsRequest(p, ov) + PbsDependencies(p, data);
    assert Trailer(data) == PbsTrailer;
    assert p == "#PBS";
  }

  /** With no overrides, a PBS job asks for 18 hours on one node of 16 processors, as yeo-group, on home. */
  lemma PbsDefaults()
    ensures var r := PbsRequest("#PBS", NoOverrides);
      && |r| == 4
      && r[0] == "#PBS" + " -l walltime=" + "18:00:00"
      && r[1] == "#PBS" + " -l nodes=" + "1" + ":ppn=" + "16"
      && r[2] == "#PBS" + " -A " + "yeo-group"
      && r[3] == "#PBS" + " -q " + "home"
  {
    DefaultCounts();
  }

  /** The default node and processor counts as the directive spells them. */
  lemma DefaultCounts()
    ensures IntText(NoOverrides.nodes.GetOr(DefaultNodes)) == "1"
    ensures IntText(NoOverrides.ppn.GetOr(DefaultPpn)) == "16"
  {
    assert Decimal(1) == [DigitChar(1)] == "1";
    assert Decimal(16) == Decimal(1) + [DigitChar(6)];
  }

  // ---------------------------------------------------------------------
  // Dependency directives
  // ---------------------------------------------------------------------

  /** The colon-separated PBS dependency of jobs 10 and 11. */
  lemma DependLineExample()
    ensures DependLine("#PBS", ["10", "11"]) == "#PBS -W depend=afterok:10:11"
  {
    assert Join(":", ["10", "11"]) == "10" + ":" + Join(":", ["11"]);
  }

  /** Job ids without a colon can be read back from the PBS dependency directive. */
  lemma DependLineDetermined(p: string, a: seq<string>, b: seq<string>)
    requires a != [] && b != []
    requires forall i :: 0 <= i < |a| ==> ':' !in a[i]
    requires forall i :: 0 <= i < |b| ==> ':' !in b[i]
    requires DependLine(p, a) == DependLine(p, b)
    ensures a == b
  {
    var head := p + " -W depend=afterok:";
    assert Join(":", a) == DependLine(p, a)[|head|..];
    assert Join(":", b) == DependLine(p, b)[|head|..];
    SplitJoin(a, ':');
    SplitJoin(b, ':');
  }

  /**
   * The grid-engine hold directive cannot be read back: waiting on jobs 1
   * and 23 renders the same line as waiting on jobs 12 and 3.
   */
  lemma HoldLineConflates(p: string)
    ensures HoldLine(p, ["1", "23"]) == HoldLine(p, ["12", "3"])
  {
    ConcatNotInjective();
  }

  /**
   * `add_wait` makes the new id the last one the script waits for: glued to
   * the end of the grid-engine hold list, after a colon in the PBS
   * dependency list.
   */
  lemma AddWaitExtendsDependencies(data: map<string, Value>, ref: JobRef, p: string)
    requires "wait_for" in data ==> data["wait_for"].Texts?
    ensures var after := WaitFor(WithWait(data, ref));
      && after == WaitFor(data) + [RefText(ref)]
      && HoldLine(p, after) == p + " -hold_jid " + Concat(WaitFor(data)) + RefText(ref) + " "
      && DependLine(p, after) ==
           if WaitFor(data) == [] then p + " -W depend=afterok:" + RefText(ref)
           else DependLine(p, WaitFor(data)) + ":" + RefText(ref)
  {
    var before, x := WaitFor(data), RefText(ref);
    assert WaitFor(WithWait(data, ref)) == before + [x];
    HoldLineSnoc(p, before, x);
    if before == [] {
      assert before + [x] == [x];
    } else {
      DependLineSnoc(p, before, x);
    }
  }

  lemma HoldLineSnoc(p: string, ids: seq<string>, x: string)
    ensures HoldLine(p, ids + [x]) == p + " -hold_jid " + Concat(ids) + x + " "
  {
    ConcatSnoc(ids, x);
  }

  lemma DependLineSnoc(p: string, ids: seq<string>, x: string)
    requires ids != []
    ensures DependLine(p, ids + [x]) == DependLine(p, ids) + ":" + x
  {
    JoinSnoc(":", ids, x);
  }

  /** `add_wait` keeps a renderable descriptor renderable. */
  lemma AddWaitKeepsRenderable(data: map<string, Value>, ref: JobRef)
    requires Renderable(data)
    ensures Renderable(WithWait(data, ref))
  {
    var r := WithWait(data, ref);
    assert forall k :: k in RequiredKeys ==> k != "wait_for";
    assert Passes(r, "queue_type") && Passes(r, "sh_file");
    assert Passes(r, "command_list") && Passes(r, "job_name");
  }

  /**
   * `add_resource("-pe", "smp 4")` on a descriptor whose resources were
   * given as the plain dictionary `{"-l": ["mem=4G"]}` fails with a key
   * error; on the same table held by a `defaultdict(list)` it starts the
   * list `["smp 4"]` and keeps the other entry.
   */
  lemma ResourceKeyErrorExample()
    ensures WithResource(map["additional_resources" := Table(map["-l" := ["mem=4G"]], false)], "-pe", "smp 4").None?
    ensures var r := WithResource(map["additional_resources" := Table(map["-l" := ["mem=4G"]], true)], "-pe", "smp 4");
      r.Some? && Resources(r.value) == map["-l" := ["mem=4G"], "-pe" := ["smp 4"]]
  {
    var t := map["-l" := ["mem=4G"]];
    var d := map["additional_resources" := Table(t, true)];
    assert Resources(d) == t;
    var r := WithResource(d, "-pe", "smp 4").value;
    assert Resources(r).Keys == {"-l", "-pe"};
    assert ResourceValues(t, "-pe") == [];
    assert Resources(r)["-pe"] == ["smp 4"] && Resources(r)["-l"] == ["mem=4G"];
  }

  // ---------------------------------------------------------------------
  // Options that never reach the script, and the returned job id
  // ---------------------------------------------------------------------

  /** The `array` and `chunks` options change neither the script nor the result. */
  lemma ArrayAndChunksIgnored(data: map<string, Value>, ov: Overrides, arrayJob: bool, chunks: int,
                              reply: string, o1: seq<string>, o2: seq<string>)
    requires Conforms(data)
    ensures SubmitResult(data, ov.(arrayJob := arrayJob, chunks := chunks), reply) == SubmitResult(data, ov, reply)
    ensures Renderable(data) && IsEnumeration(o1, Resources(data).Keys) && IsEnumeration(o2, ov.resources.Keys)
      ==> Script(data, ov.(arrayJob := arrayJob, chunks := chunks), o1, o2) == Script(data, ov, o1, o2)
  {
  }

  /**
   * When the scheduler's reply is digit-free text, the number it assigned and
   * text that does not start with a digit, `write_sh` returns that number's
   * digits.
   */
  lemma SubmittedJobId(data: map<string, Value>, ov: Overrides, pre: string, n: nat, post: string)
    requires Renderable(data) && ov.submit
    requires forall j :: 0 <= j < |pre| ==> !IsDigit(pre[j])
    requires post == [] || !IsDigit(post[0])
    ensures SubmitResult(data, ov, pre + Decimal(n) + post) == JobId(Decimal(n))
    ensures ValueOf(SubmitResult(data, ov, pre + Decimal(n) + post).digits) == n
  {
    FirstDigitRunOf(pre, Decimal(n), post);
    DecimalRoundTrip(n);
  }

  /**
   * A descriptor whose job name is empty but whose other required keys are
   * set is refused with a complaint about `job_name`.
   */
  lemma EmptyJobNameRefused(data: map<string, Value>)
    requires Conforms(data)
    requires Passes(data, "queue_type") && Passes(data, "sh_file") && Passes(data, "command_list")
    requires "job_name" in data && data["job_name"] == Text("")
    ensures SubmitResult(data, NoOverrides, "") == MissingValue("job_name")
  {
    assert !Passes(data, "job_name");
    var e := Validate(data).value;
    var i :| ReportsKey(data, i, e);
    assert RequiredKeys[0] == "queue_type" && RequiredKeys[1] == "sh_file";
    assert RequiredKeys[2] == "command_list" && RequiredKeys[3] == "job_name";
    assert i == 3;
  }

  // ---------------------------------------------------------------------
  // Examples
  // ---------------------------------------------------------------------

  /** The PBS job "test" that echoes hi, with every option left at its default. */
  const ExampleJob: map<string, Value> :=
    map["queue_type" := Text("PBS"), "sh_file" := Text("test.sh"),
        "command_list" := Texts(["echo hi"]), "job_name" := Text("test")]

  /** The example job passes validation and, not being submitted, yields the not-submitted result. */
  lemma ExampleAccepted()
    ensures Renderable(ExampleJob) && QueueType(ExampleJob) == "PBS"
    ensures IsEnumeration([], Resources(ExampleJob).Keys) && IsEnumeration([], NoOverrides.resources.Keys)
    ensures SubmitResult(ExampleJob, NoOverrides, "") == NotSubmitted
  {
    var data := ExampleJob;
    assert Passes(data, "queue_type") && Passes(data, "sh_file");
    assert Passes(data, "command_list") && Passes(data, "job_name");
    assert Renderable(data);
  }

  /** The example script opens with the shebang and the job's name, output and error files. */
  lemma ExampleHeader()
    ensures Renderable(ExampleJob)
    ensures var s := Script(ExampleJob, NoOverrides, [], []);
      && s[0] == "#!/bin/sh"
      && s[1] == "#PBS" + " -N " + "test"
      && s[2] == "#PBS" + " -o " + "test.sh" + ".out"
      && s[3] == "#PBS" + " -e " + "test.sh" + ".err"
      && s[4] == "#PBS" + " -V"
  {
    ExampleParts();
    ExampleNames();
    var data := ExampleJob;
    var s, h := Script(data, NoOverrides, [], []), Header(data);
    assert s[..5] == h;
    assert s[0] == h[0] && s[1] == h[1] && s[2] == h[2] && s[3] == h[3] && s[4] == h[4];
  }

  /** The example job's name, and its output and error files defaulted from the script's name. */
  lemma ExampleNames()
    ensures Renderable(ExampleJob)
    ensures ExampleJob["job_name"].text == "test"
    ensures OutPath(ExampleJob) == "test.sh" + ".out" && ErrPath(ExampleJob) == "test.sh" + ".err"
  {
    ExampleAccepted();
  }

  /** The example script then carries the default PBS requests. */
  lemma ExampleRequests()
    ensures Renderable(ExampleJob)
    ensures var s := Script(ExampleJob, NoOverrides, [], []);
      && |s| >= 9
      && s[5] == "#PBS" + " -l walltime=" + "18:00:00"
      && s[6] == "#PBS" + " -l nodes=" + "1" + ":ppn=" + "16"
      && s[7] == "#PBS" + " -A " + "yeo-group"
      && s[8] == "#PBS" + " -q " + "home"
  {
    ExampleAccepted();
    PbsLayout(ExampleJob, NoOverrides, [], []);
    PbsDefaults();
    var s, r := Script(ExampleJob, NoOverrides, [], []), PbsRequest("#PBS", NoOverrides);
    assert s[5..9] == r;
    assert s[5] == r[0] && s[6] == r[1] && s[7] == r[2] && s[8] == r[3];
  }

  /** The parts of the example job the script is built from. */
  lemma ExampleParts()
    ensures Renderable(ExampleJob) && Prefix(ExampleJob) == "#PBS"
    ensures IsEnumeration([], Resources(ExampleJob).Keys) && IsEnumeration([], NoOverrides.resources.Keys)
    ensures PbsDependencies("#PBS", ExampleJob) == []
    ensures Commands(ExampleJob) == ["echo hi"]
  {
    ExampleAccepted();
    assert WaitFor(ExampleJob) == [] && WaitForArray(ExampleJob) == [];
  }

  /** The example script ends by changing to the submission directory, echoing hi, and a blank line. */
  lemma ExampleBody()
    ensures Renderable(ExampleJob)
    ensures var s := Script(ExampleJob, NoOverrides, [], []);
      && |s| == 14
      && s[9] == ""
      && s[10] == "# Go to the directory from which the script was called"
      && s[11] == "cd $PBS_O_WORKDIR"
      && s[12] == "echo hi"
      && s[13] == ""
  {
    ExampleParts();
    var data := ExampleJob;
    PbsLayout(data, NoOverrides, [], []);
    var s := Script(data, NoOverrides, [], []);
    var tail := s[9..];
    assert tail == [] + [] + [] + PbsTrailer + (["echo hi"] + [""]);
    assert s[9] == tail[0] && s[10] == tail[1] && s[11] == tail[2] && s[12] == tail[3] && s[13] == tail[4];
  }
}
