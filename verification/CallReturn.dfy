/** Calls and returns match, whatever the program: the machine alone guarantees it. */
module CallReturn {
  import opened Words
  import opened Machine

  /** The same number of locals, and the same saved registers; the locals themselves may have been
      written from deeper frames. */
  predicate SameShape(f: Frame, g: Frame) {
    |f.locals| == |g.locals| && f.saved == g.saved
  }

  predicate SameFrames(fs: seq<Frame>, gs: seq<Frame>) {
    |fs| == |gs| && forall i :: 0 <= i < |fs| ==> SameShape(fs[i], gs[i])
  }

  /** `s` is a state inside the call that was made in state `c`. */
  predicate Inside(c: State, s: State) {
    && |s.rets| > |c.rets|
    && s.rets[..|c.rets| + 1] == c.rets + [c.pc + 1]
    && |s.frames| == |c.frames| + |s.rets| - |c.rets|
    && SameFrames(s.frames[..|c.frames|], c.frames)
    && s.frames[|c.frames|].saved == SaveRegs(c.regs)
  }

  /** `t` is a state in which that call has returned. */
  predicate Back(c: State, t: State) {
    && t.pc == c.pc + 1
    && t.rets == c.rets
    && SameFrames(t.frames, c.frames)
    && SaveRegs(t.regs) == SaveRegs(c.regs)
  }

  lemma EnterInside(c: State, target: nat, argc: nat)
    requires argc <= REG_COUNT
    ensures Inside(c, Enter(c, target, argc))
  {
    var s := Enter(c, target, argc);
    assert s.frames[..|c.frames|] == c.frames;
    assert s.rets[..|c.rets| + 1] == s.rets;
  }

  /** A step stays inside the call, or returns from it. */
  lemma StepInside(p: seq<Op>, c: State, s: State)
    requires Inside(c, s) && Step(p, s).Next?
    ensures Inside(c, Step(p, s).state) || Back(c, Step(p, s).state)
  {
    hide AluWord, SkipToEnd, LowByte, CalleeLocals;
    var t, n := Step(p, s).state, |c.rets| + 1;
    match p[s.pc]
    case FCall(target, argc) =>
      assert t.rets[..n] == s.rets[..n];
      assert t.frames[..|c.frames|] == s.frames[..|c.frames|];
    case FRet =>
      if |s.rets| > n {
        assert t.rets[..n] == s.rets[..n];
        assert t.frames[..|c.frames|] == s.frames[..|c.frames|];
      } else {
        assert s.rets == c.rets + [c.pc + 1];
        assert t.frames == s.frames[..|c.frames|];
        assert Last(s.frames).saved == SaveRegs(c.regs);
      }
    case _ =>
  }

  /** The state after `k` steps, for a run that gets that far. */
  function At(p: seq<Op>, c: State, k: nat): State
    requires Steps(p, c, k).Some?
  {
    Steps(p, c, k).value
  }

  lemma ShorterRun(p: seq<Op>, c: State, k: nat)
    requires Steps(p, c, k + 1).Some?
    ensures Steps(p, c, k).Some? && Step(p, At(p, c, k)) == Next(At(p, c, k + 1))
  {
    hide Step;
    PrefixRun(p, c, k, 1);
    StepsAdd(p, c, k, At(p, c, k), 1);
    assert Steps(p, At(p, c, k), 1) == Steps(p, c, k + 1);
  }

  lemma {:induction false} PrefixRun(p: seq<Op>, c: State, k: nat, more: nat)
    requires Steps(p, c, k + more).Some?
    ensures Steps(p, c, k).Some?
    decreases k
  {
    hide Step;
    if k > 0 {
      PrefixRun(p, Step(p, c).state, k - 1, more);
    }
  }

  /** The return of the FCALL at `c` is the first moment the return stack is as short as before. */
  ghost predicate ReturnsAfter(p: seq<Op>, c: State, k: nat) {
    && k > 0 && Steps(p, c, k).Some?
    && |At(p, c, k).rets| <= |c.rets|
    && forall j :: 0 < j < k && Steps(p, c, j).Some? ==> |At(p, c, j).rets| > |c.rets|
  }

  lemma ReturnsOnce(p: seq<Op>, c: State, j: nat, k: nat)
    requires ReturnsAfter(p, c, j) && ReturnsAfter(p, c, k)
    ensures j == k
  {
    hide Steps;
  }

  lemma {:induction false} StaysInside(p: seq<Op>, c: State, k: nat)
    requires c.pc < |p| && p[c.pc].FCall? && k > 0 && Steps(p, c, k).Some?
    requires forall j :: 0 < j <= k && Steps(p, c, j).Some? ==> |At(p, c, j).rets| > |c.rets|
    ensures Inside(c, At(p, c, k))
    decreases k
  {
    hide Inside, Back;
    ShorterRun(p, c, k - 1);
    if k == 1 {
      EnterInside(c, p[c.pc].target, p[c.pc].argc);
    } else {
      StaysInside(p, c, k - 1);
      StepInside(p, c, At(p, c, k - 1));
      NotBack(c, At(p, c, k));
    }
  }

  lemma NotBack(c: State, t: State)
    requires |t.rets| > |c.rets|
    ensures !Back(c, t)
  {
  }

  /** For every program and every run from an FCALL to its return, however deeply it recurses: it
      resumes just after the call, both stacks have their old height and entries, every frame has
      its old size and saved registers, and registers 1, 2 and 3 have their old values. */
  lemma CallReturns(p: seq<Op>, c: State, k: nat)
    requires c.pc < |p| && p[c.pc].FCall? && ReturnsAfter(p, c, k)
    ensures Back(c, At(p, c, k))
  {
    hide Back;
    ShorterRun(p, c, k - 1);
    if k == 1 {
      EnterInside(c, p[c.pc].target, p[c.pc].argc);
    } else {
      StaysInside(p, c, k - 1);
      StepInside(p, c, At(p, c, k - 1));
    }
  }
}
