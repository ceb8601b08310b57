/**
 * The proxy invocation handler of easy-rmi: it sends calls on methods of the
 * remote interface to `invokeRemote`, runs methods the handler itself has (those
 * of `Object`, for one) locally, refuses every other method, and turns whatever
 * the call throws into an exception the called method is allowed to throw.
 */
module EasyRmi {
  import opened JavaLang

  /** Some declared exception type is a supertype of (or equal to) class `k`. */
  predicate Accepts(h: Hierarchy, declared: seq<ClassId>, k: ClassId) {
    exists d :: d in declared && IsAssignableFrom(h, d, k)
  }

  /**
   * The exception the handler throws for an `Exception` `e` raised while serving
   * a method that declares `declared`: `e` itself when a declared type accepts
   * it; otherwise a new `RemoteException` when a declared type accepts
   * `RemoteException`; otherwise a new `RuntimeException`. Either new exception
   * carries `e`'s message and has `e` as its cause.
   */
  function CompatibleException(h: Hierarchy, declared: seq<ClassId>, e: Throwable): (r: Throwable)
    ensures r == e <==> Accepts(h, declared, e.kind)
    ensures r != e ==> r.message == e.message && r.cause == Some(e)
    ensures r != e ==> (r.kind == REMOTE_EXCEPTION <==> Accepts(h, declared, REMOTE_EXCEPTION))
    ensures r != e ==> (r.kind == RUNTIME_EXCEPTION <==> !Accepts(h, declared, REMOTE_EXCEPTION))
    ensures Accepts(h, declared, r.kind) || r.kind == RUNTIME_EXCEPTION
  {
    if Accepts(h, declared, e.kind) then e
    else if Accepts(h, declared, REMOTE_EXCEPTION) then Wrap(REMOTE_EXCEPTION, e)
    else Wrap(RUNTIME_EXCEPTION, e)
  }

  /** Only the set of declared exception types matters, not their order or repetitions. */
  lemma CompatibleExceptionIgnoresOrder(h: Hierarchy, declared: seq<ClassId>, reordered: seq<ClassId>, e: Throwable)
    requires (set x | x in declared) == (set x | x in reordered)
    ensures CompatibleException(h, declared, e) == CompatibleException(h, reordered, e)
  {
    var declaredSet, reorderedSet := set x | x in declared, set x | x in reordered;
    forall d: ClassId
      ensures d in declared <==> d in reordered
    {
      assert d in declared <==> d in declaredSet;
      assert d in reordered <==> d in reorderedSet;
    }
  }

  /**
   * A declared type that accepts an exception class accepts its subclasses too,
   * so every exception of such a subclass is passed through unchanged.
   */
  lemma AcceptsSubclasses(h: Hierarchy, declared: seq<ClassId>, k: ClassId, e: Throwable)
    requires Accepts(h, declared, k) && IsAssignableFrom(h, k, e.kind)
    ensures CompatibleException(h, declared, e) == e
  {
    var d :| d in declared && IsAssignableFrom(h, d, k);
    AssignableTransitive(h, d, k, e.kind);
  }

  /** In the real class universe the translated exception of an `Exception` is an `Exception` again. */
  lemma CompatibleExceptionIsException(h: Hierarchy, declared: seq<ClassId>, e: Throwable)
    requires h.Valid() && IsAssignableFrom(h, EXCEPTION, e.kind)
    ensures IsAssignableFrom(h, EXCEPTION, CompatibleException(h, declared, e).kind)
  {
    var r := CompatibleException(h, declared, e);
    if r.kind == REMOTE_EXCEPTION {
      assert h.supers[REMOTE_EXCEPTION][0] == IO_EXCEPTION;
      assert h.supers[IO_EXCEPTION][0] == EXCEPTION;
      assert IsAssignableFrom(h, EXCEPTION, IO_EXCEPTION);
    } else if r.kind == RUNTIME_EXCEPTION {
      assert h.supers[RUNTIME_EXCEPTION][0] == EXCEPTION;
    }
  }

  /**
   * A match anywhere in the list wins over a `RemoteException`-compatible type
   * declared before it.
   */
  lemma LaterMatchWins(h: Hierarchy, declared: seq<ClassId>, e: Throwable, i: nat, j: nat)
    requires i < j < |declared|
    requires IsAssignableFrom(h, declared[i], REMOTE_EXCEPTION) && IsAssignableFrom(h, declared[j], e.kind)
    ensures CompatibleException(h, declared, e) == e
  {
  }

  /**
   * A class universe with an application exception `NotFound` (an `Exception`)
   * and a transport failure `Timeout` (an `IOException` that is not a
   * `RemoteException`).
   */
  const NOT_FOUND: ClassId := 11
  const TIMEOUT: ClassId := 12
  const Sample: Hierarchy := Hierarchy([[], [OBJECT], [THROWABLE], [THROWABLE], [EXCEPTION], [RUNTIME_EXCEPTION],
                                        [RUNTIME_EXCEPTION], [EXCEPTION], [IO_EXCEPTION], [EXCEPTION],
                                        [REFLECTIVE_OPERATION_EXCEPTION], [EXCEPTION], [IO_EXCEPTION]])

  /**
   * `fetch(id) throws NotFound, RemoteException`: a `NotFound` passes through
   * unchanged and a `Timeout` becomes a `RemoteException` around it; without
   * `RemoteException` in the signature the `Timeout` becomes a `RuntimeException`.
   */
  lemma {:induction false} FetchScenario(notFound: Throwable, timeout: Throwable)
    requires notFound.kind == NOT_FOUND && timeout.kind == TIMEOUT
    ensures Sample.Valid()
    ensures CompatibleException(Sample, [NOT_FOUND, REMOTE_EXCEPTION], notFound) == notFound
    ensures CompatibleException(Sample, [NOT_FOUND, REMOTE_EXCEPTION], timeout) == Wrap(REMOTE_EXCEPTION, timeout)
    ensures CompatibleException(Sample, [NOT_FOUND], timeout) == Wrap(RUNTIME_EXCEPTION, timeout)
  {
    assert NOT_FOUND in [NOT_FOUND, REMOTE_EXCEPTION] && IsAssignableFrom(Sample, NOT_FOUND, NOT_FOUND);
    assert REMOTE_EXCEPTION in [NOT_FOUND, REMOTE_EXCEPTION] && IsAssignableFrom(Sample, REMOTE_EXCEPTION, REMOTE_EXCEPTION);
    assert Sample.supers[TIMEOUT] == [IO_EXCEPTION];
    forall d | d in [NOT_FOUND, REMOTE_EXCEPTION]
      ensures !IsAssignableFrom(Sample, d, TIMEOUT)
    {
      assert !IsAssignableFrom(Sample, d, IO_EXCEPTION);
    }
  }

  /** The throwable that `throw e.getTargetException()` raises: the target, or a `NullPointerException` when there is none. */
  function TargetOf(t: Throwable): Throwable {
    if t.cause.Some? then t.cause.value else NullThrown
  }

  /**
   * `r` is what the caller receives when the attempted call produced `o` while
   * serving a method that declares `declared`: a value is returned as it is; an
   * `InvocationTargetException` is unwrapped one level and its target thrown
   * untranslated; any other `Exception` is translated; any other throwable
   * propagates as it is.
   */
  predicate Settles(h: Hierarchy, declared: seq<ClassId>, o: Outcome, r: Outcome) {
    && (o.Returned? ==> r == o)
    && (o.Threw? && IsAssignableFrom(h, INVOCATION_TARGET_EXCEPTION, o.thrown.kind) ==> r == Threw(TargetOf(o.thrown)))
    && (o.Threw? && !IsAssignableFrom(h, INVOCATION_TARGET_EXCEPTION, o.thrown.kind) && IsAssignableFrom(h, EXCEPTION, o.thrown.kind) ==>
          r == Threw(CompatibleException(h, declared, o.thrown)))
    && (o.Threw? && !IsAssignableFrom(h, INVOCATION_TARGET_EXCEPTION, o.thrown.kind) && !IsAssignableFrom(h, EXCEPTION, o.thrown.kind) ==>
          r == o)
  }

  /**
   * Apart from the unwrapped target of an `InvocationTargetException`, every
   * `Exception` the handler throws is an instance of a declared exception type
   * or a `RuntimeException`: the caller never sees an undeclared checked
   * exception that the attempted call raised.
   */
  lemma HandlerThrowsOnlyDeclaredOrUnchecked(h: Hierarchy, declared: seq<ClassId>, o: Outcome, r: Outcome)
    requires Settles(h, declared, o, r) && r.Threw?
    requires o.Threw? && !IsAssignableFrom(h, INVOCATION_TARGET_EXCEPTION, o.thrown.kind)
    ensures r == o || Accepts(h, declared, r.thrown.kind) || r.thrown.kind == RUNTIME_EXCEPTION
    ensures IsAssignableFrom(h, EXCEPTION, r.thrown.kind) ==>
              Accepts(h, declared, r.thrown.kind) || IsAssignableFrom(h, RUNTIME_EXCEPTION, r.thrown.kind)
  {
  }

  /** One call the handler made on a collaborator. */
  datatype Call =
    | RemoteCall(remoteMethod: Method, remoteArgs: seq<Value>)  // invokeRemote(method, args)
    | LocalCall(localMethod: Method, localArgs: seq<Value>)     // method.invoke(this, args)

  /** The `UnsupportedOperationException` raised for a method of neither kind. */
  function UnsupportedOperation(classType: ClassId, m: Method): Throwable {
    Throwable(UNSUPPORTED_OPERATION_EXCEPTION, UnsupportedCall(classType, m), None)
  }

  /** `throw null` raises a `NullPointerException` without message or cause. */
  const NullThrown: Throwable := Throwable(NULL_POINTER_EXCEPTION, NoMessage, None)

  class RemoteInvocationHandler {
    /** The remote interface. */
    const classType: ClassId
    /** The public methods of the remote interface (`classType.getMethods()`). */
    const apiMethods: seq<Method>
    /** The runtime class of this handler (`getClass()`), a concrete subclass. */
    const runtimeClass: ClassId
    /** What the subclass's `invokeRemote` produces for a call. */
    const remote: (Method, seq<Value>) -> Outcome
    /** What running one of the handler's own methods reflectively produces. */
    const local: (Method, seq<Value>) -> Outcome
    /** The calls this handler has made on `invokeRemote` and on its own methods, in order. */
    ghost var log: seq<Call>

    constructor (classType: ClassId, interfaceMethods: seq<Method>, runtimeClass: ClassId,
                 remote: (Method, seq<Value>) -> Outcome, local: (Method, seq<Value>) -> Outcome)
      ensures this.classType == classType
      ensures this.apiMethods == interfaceMethods
      ensures this.runtimeClass == runtimeClass
      ensures this.remote == remote && this.local == local
      ensures log == []
    {
      this.classType := classType;
      this.apiMethods := interfaceMethods;
      this.runtimeClass := runtimeClass;
      this.remote := remote;
      this.local := local;
      log := [];
    }

    /** `invokeRemote(method, args)`, implemented by a subclass. */
    method InvokeRemote(m: Method, args: seq<Value>) returns (o: Outcome)
      modifies this
      ensures log == old(log) + [RemoteCall(m, args)]
      ensures o == remote(m, args)
    {
      log := log + [RemoteCall(m, args)];
      o := remote(m, args);
    }

    /** `method.invoke(this, args)`: runs one of the handler's own methods. */
    method InvokeOwnMethod(m: Method, args: seq<Value>) returns (o: Outcome)
      modifies this
      ensures log == old(log) + [LocalCall(m, args)]
      ensures o == local(m, args)
    {
      log := log + [LocalCall(m, args)];
      o := local(m, args);
    }

    /** Handles one intercepted call of `m` with `args`. */
    method Invoke(h: Hierarchy, m: Method, args: seq<Value>) returns (r: Outcome)
      requires h.Valid()
      modifies this
      // an interface method goes to invokeRemote, exactly once
      ensures m in apiMethods ==>
                log == old(log) + [RemoteCall(m, args)] && Settles(h, m.exceptionTypes, remote(m, args), r)
      // another method of the handler's class runs locally, once, and invokeRemote is not called
      ensures m !in apiMethods && IsAssignableFrom(h, m.declaringClass, runtimeClass) ==>
                log == old(log) + [LocalCall(m, args)] && Settles(h, m.exceptionTypes, local(m, args), r)
      // toString, equals, hashCode and every other method of Object are among them
      ensures m !in apiMethods && m.declaringClass == OBJECT ==> log == old(log) + [LocalCall(m, args)]
      // any other method calls neither, and its refusal is translated
      ensures m !in apiMethods && !IsAssignableFrom(h, m.declaringClass, runtimeClass) ==>
                log == old(log) && r == Threw(CompatibleException(h, m.exceptionTypes, UnsupportedOperation(classType, m)))
    {
      var o: Outcome;
      if m in apiMethods {
        o := InvokeRemote(m, args);
      } else if IsAssignableFrom(h, m.declaringClass, runtimeClass) {
        o := InvokeOwnMethod(m, args);
      } else {
        UnsupportedOperationIsPlainException(h);
        o := Threw(UnsupportedOperation(classType, m));
      }
      match o
      case Returned(_) =>
        r := o;
      case Threw(t) =>
        if IsAssignableFrom(h, INVOCATION_TARGET_EXCEPTION, t.kind) {
          r := Threw(TargetOf(t));
        } else if IsAssignableFrom(h, EXCEPTION, t.kind) {
          var translated := GetMethodCompatibleException(h, m, t);
          r := Threw(translated);
        } else {
          r := o;
        }
    }

    /**
     * Scans the declared exception types of `m` in declaration order: stops at
     * the first one that accepts `e`, and until then remembers a
     * `RemoteException` as soon as some type accepts `RemoteException`; falls
     * back to a `RuntimeException`.
     */
    method GetMethodCompatibleException(h: Hierarchy, m: Method, e: Throwable) returns (r: Throwable)
      ensures r == CompatibleException(h, m.exceptionTypes, e)
    {
      var types := m.exceptionTypes;
      var res: Option<Throwable> := None;
      for i := 0 to |types|
        invariant forall j :: 0 <= j < i ==> !IsAssignableFrom(h, types[j], e.kind)
        invariant res == if exists j :: 0 <= j < i && IsAssignableFrom(h, types[j], REMOTE_EXCEPTION)
                         then Some(Wrap(REMOTE_EXCEPTION, e)) else None
      {
        if IsAssignableFrom(h, types[i], e.kind) {
          res := Some(e);
          break;
        }
        if res.None? && IsAssignableFrom(h, types[i], REMOTE_EXCEPTION) {
          res := Some(Wrap(REMOTE_EXCEPTION, e));
        }
      }
      if res.None? {
        res := Some(Wrap(RUNTIME_EXCEPTION, e));
      }
      r := res.value;
    }
  }
}
