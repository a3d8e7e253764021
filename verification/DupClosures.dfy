/** Closures made from a constant template: the template itself is handed out as long as what it captured
    is raw-equal to what a new closure would capture. */
module DupClosures {
  /** Numbers keep the two values raw equality treats specially. */
  datatype Value = Nil | Number(n: int) | NegativeZero | NotANumber | Object(id: nat)

  predicate RawEqual(a: Value, b: Value) {
    if a.NotANumber? || b.NotANumber? then false
    else a == b || (a in {Number(0), NegativeZero} && b in {Number(0), NegativeZero})
  }

  /** An upvalue holds what was captured, or something raw-equal to it. */
  predicate Captures(upvalue: Value, source: Value) {
    upvalue == source || RawEqual(upvalue, source)
  }

  predicate CapturesAll(upvalues: seq<Value>, sources: seq<Value>) {
    |upvalues| == |sources| && forall k :: 0 <= k < |sources| ==> Captures(upvalues[k], sources[k])
  }

  /** Raw equality of the first `n`. */
  predicate AllRawEqual(upvalues: seq<Value>, sources: seq<Value>, n: nat)
    requires n <= |upvalues| && n <= |sources|
  {
    forall k :: 0 <= k < n ==> RawEqual(upvalues[k], sources[k])
  }

  /** `preload` marks a template that has not been handed out yet. */
  class Closure {
    var env: nat
    var upvalues: seq<Value>
    var preload: bool

    constructor (env: nat, upvalues: seq<Value>, preload: bool)
      ensures this.env == env && this.upvalues == upvalues && this.preload == preload
    {
      this.env, this.upvalues, this.preload := env, upvalues, preload;
    }
  }

  /** One closure expression: its template and every closure it has handed out, with what they captured. */
  class Site {
    const template: Closure
    ghost var handed: map<Closure, seq<Value>>

    /** Handed-out closures still hold what they were handed out with; an unused template is not among them. */
    ghost predicate Valid()
      reads this, template, handed.Keys
    {
      && (template.preload ==> template !in handed)
      && forall c :: c in handed ==> c.upvalues == handed[c] && !c.preload
    }

    constructor (env: nat, count: nat)
      requires count > 0
      ensures Valid() && handed == map[] && fresh(template) && template.env == env
      ensures |template.upvalues| == count && template.preload
    {
      template := new Closure(env, seq(count, i => Nil), true);
      handed := map[];
    }

    /** One capture: stay on the template while it matches, leave it once it does not and is in use. */
    method Capture(current: Closure, index: nat, sources: seq<Value>, env: nat) returns (next: Closure)
      requires index < |sources| == |template.upvalues| == |current.upvalues|
      requires CapturesAll(current.upvalues[..index], sources[..index])
      requires current != template ==> current !in handed && !current.preload
      requires current == template ==> template.env == env
      requires Valid()
      modifies current
      ensures |next.upvalues| == |sources| && CapturesAll(next.upvalues[..index + 1], sources[..index + 1])
      ensures next == current || (fresh(next) && next.env == env && !next.preload && current == template && unchanged(current))
      ensures next == current ==> next.env == old(current.env) && next.preload == old(current.preload)
      ensures next != current <==>
                current == template && !old(template.preload) && !RawEqual(old(current.upvalues[index]), sources[index])
      ensures current == template && !old(template.preload) ==> unchanged(template)
      ensures Valid() && handed == old(handed)
    {
      next := current;
      ghost var was := current.upvalues;
      if current == template && RawEqual(current.upvalues[index], sources[index]) {
        // The shared template already holds this value.
      } else if current == template && !template.preload {
        next := new Closure(env, template.upvalues, false);
        next.upvalues := next.upvalues[index := sources[index]];
      } else {
        current.upvalues := current.upvalues[index := sources[index]];
      }
      assert forall k :: 0 <= k < index ==> next.upvalues[k] == was[..index][k];
      assert forall k :: 0 <= k < index ==> sources[..index + 1][k] == sources[..index][k];
    }

    /** The whole expression. Whatever is shared, the new closure holds what was captured, in order, and
        every closure handed out before keeps exactly its upvalues. The template is handed out exactly in its own
        environment, if it is unused or already holds what raw equality takes for the captured values. */
    method DupClosure(env: nat, sources: seq<Value>) returns (closure: Closure)
      requires Valid() && 0 < |sources| == |template.upvalues|
      modifies this, template
      ensures Valid() && CapturesAll(closure.upvalues, sources) && closure.env == env
      ensures closure == template || fresh(closure)
      ensures closure == template <==> old(template.env) == env && (old(template.preload) || AllRawEqual(old(template.upvalues), sources, |sources|))
      ensures handed == old(handed)[closure := closure.upvalues]
      ensures forall c :: c in old(handed) ==> c.upvalues == old(c.upvalues) && handed[c] == old(handed)[c]
      ensures |template.upvalues| == |sources| && template.env == old(template.env)
    {
      if template.env == env {
        closure := template;
      } else {
        closure := new Closure(env, seq(|sources|, i => Nil), false);
      }
      for index := 0 to |sources|
        invariant |closure.upvalues| == |sources| == |template.upvalues| && closure.env == env
        invariant template.env == old(template.env) && template.preload == old(template.preload)
        invariant CapturesAll(closure.upvalues[..index], sources[..index])
        invariant closure == template || (fresh(closure) && closure !in handed && !closure.preload)
        invariant closure == template <==> template.env == env && (template.preload || AllRawEqual(old(template.upvalues), sources, index))
        invariant Valid() && handed == old(handed)
        invariant forall c :: c in handed ==> c.upvalues == old(c.upvalues)
        invariant !old(template.preload) ==> template.upvalues == old(template.upvalues)
      {
        closure := Capture(closure, index, sources, env);
      }
      assert closure.upvalues[..|sources|] == closure.upvalues && sources[..|sources|] == sources;
      closure.preload := false;
      handed := handed[closure := closure.upvalues];
    }
  }
}
