/**
 * The slice of the Java runtime that the invocation handler relies on: a finite
 * universe of classes and interfaces with their subtype relation
 * (`Class.isAssignableFrom`), throwables with a message and a cause, reflected
 * methods, and the outcome of a reflective call.
 */
module JavaLang {

  datatype Option<+T> = None | Some(value: T)

  /** A class or interface, identified by its index in the class universe. */
  type ClassId = nat

  /**
   * The loaded classes. `supers[c]` lists the direct supertypes of class `c`
   * (its superclass and the interfaces it implements or extends). A supertype is
   * always loaded before its subtypes, so only entries smaller than `c` are
   * supertypes; any other entry is ignored. This keeps the subtype relation
   * acyclic and every function below total.
   */
  datatype Hierarchy = Hierarchy(supers: seq<seq<ClassId>>)
  {
    /** The classes the handler relies on, from java.lang, java.lang.reflect, java.io and java.rmi, with their real superclasses. */
    ghost predicate Valid() {
      && |supers| > INVOCATION_TARGET_EXCEPTION
      && supers[OBJECT] == []
      && supers[THROWABLE] == [OBJECT]
      && supers[EXCEPTION] == [THROWABLE]
      && supers[ERROR] == [THROWABLE]
      && supers[RUNTIME_EXCEPTION] == [EXCEPTION]
      && supers[UNSUPPORTED_OPERATION_EXCEPTION] == [RUNTIME_EXCEPTION]
      && supers[NULL_POINTER_EXCEPTION] == [RUNTIME_EXCEPTION]
      && supers[IO_EXCEPTION] == [EXCEPTION]
      && supers[REMOTE_EXCEPTION] == [IO_EXCEPTION]
      && supers[REFLECTIVE_OPERATION_EXCEPTION] == [EXCEPTION]
      && supers[INVOCATION_TARGET_EXCEPTION] == [REFLECTIVE_OPERATION_EXCEPTION]
    }
  }

  const OBJECT: ClassId := 0                            // java.lang.Object
  const THROWABLE: ClassId := 1                         // java.lang.Throwable
  const EXCEPTION: ClassId := 2                         // java.lang.Exception
  const ERROR: ClassId := 3                             // java.lang.Error
  const RUNTIME_EXCEPTION: ClassId := 4                 // java.lang.RuntimeException
  const UNSUPPORTED_OPERATION_EXCEPTION: ClassId := 5   // java.lang.UnsupportedOperationException
  const NULL_POINTER_EXCEPTION: ClassId := 6            // java.lang.NullPointerException
  const IO_EXCEPTION: ClassId := 7                      // java.io.IOException
  const REMOTE_EXCEPTION: ClassId := 8                  // java.rmi.RemoteException
  const REFLECTIVE_OPERATION_EXCEPTION: ClassId := 9    // java.lang.ReflectiveOperationException
  const INVOCATION_TARGET_EXCEPTION: ClassId := 10      // java.lang.reflect.InvocationTargetException

  /**
   * `a.isAssignableFrom(b)`: `a` is `Object`, which every class and interface
   * extends, or `b` itself, or one of `b`'s direct or indirect supertypes. A
   * supertype is never loaded after its subtypes.
   */
  predicate IsAssignableFrom(h: Hierarchy, a: ClassId, b: ClassId)
    ensures IsAssignableFrom(h, a, b) ==> a <= b
    decreases b
  {
    || a == OBJECT
    || a == b
    || (b < |h.supers| &&
        exists i :: 0 <= i < |h.supers[b]| && h.supers[b][i] < b && IsAssignableFrom(h, a, h.supers[b][i]))
  }

  /** Being a supertype is transitive: `isAssignableFrom` is a preorder. */
  lemma {:induction false} AssignableTransitive(h: Hierarchy, a: ClassId, b: ClassId, c: ClassId)
    requires IsAssignableFrom(h, a, b) && IsAssignableFrom(h, b, c)
    ensures IsAssignableFrom(h, a, c)
    decreases c
  {
    if a != OBJECT && b != c && b != OBJECT {
      var i :| 0 <= i < |h.supers[c]| && h.supers[c][i] < c && IsAssignableFrom(h, b, h.supers[c][i]);
      AssignableTransitive(h, a, b, h.supers[c][i]);
    }
  }

  /**
   * `UnsupportedOperationException` is an `Exception` and not an
   * `InvocationTargetException`.
   */
  lemma UnsupportedOperationIsPlainException(h: Hierarchy)
    requires h.Valid()
    ensures IsAssignableFrom(h, EXCEPTION, UNSUPPORTED_OPERATION_EXCEPTION)
    ensures !IsAssignableFrom(h, INVOCATION_TARGET_EXCEPTION, UNSUPPORTED_OPERATION_EXCEPTION)
  {
    assert h.supers[UNSUPPORTED_OPERATION_EXCEPTION][0] == RUNTIME_EXCEPTION;
    assert h.supers[RUNTIME_EXCEPTION][0] == EXCEPTION;
    assert IsAssignableFrom(h, EXCEPTION, RUNTIME_EXCEPTION);
  }

  /** The detail message of a throwable; `NoMessage` is Java's `null`. */
  datatype Message =
    | NoMessage
    | Text(text: string)
      /** The text the handler builds for a call it cannot serve: it names the remote interface and the method. */
    | UnsupportedCall(classType: ClassId, target: Method)

  /**
   * A thrown object: its runtime class, its detail message and its cause. For an
   * `InvocationTargetException` the cause is the target exception (the JDK's
   * `getCause()` returns the target).
   */
  datatype Throwable = Throwable(kind: ClassId, message: Message, cause: Option<Throwable>)

  /** The length of the chain of causes below `t`. */
  function CauseDepth(t: Throwable): nat {
    match t.cause
    case None => 0
    case Some(c) => 1 + CauseDepth(c)
  }

  /** `new K(e.getMessage(), e)`: a new throwable of class `kind` that carries `e`'s message and has `e` as its cause. */
  function Wrap(kind: ClassId, e: Throwable): (w: Throwable)
    ensures w.kind == kind && w.message == e.message && w.cause == Some(e)
    ensures CauseDepth(w) == CauseDepth(e) + 1 && w != e
  {
    Throwable(kind, e.message, Some(e))
  }

  /** A reflected method. Its declared exception types keep their declaration order. */
  datatype Method = Method(
    declaringClass: ClassId,
    name: string,
    parameterTypes: seq<ClassId>,
    returnType: ClassId,
    exceptionTypes: seq<ClassId>)

  /** An opaque object reference passed as an argument or returned as a result. */
  datatype Value = Null | Ref(address: nat)

  /** What a call produced: a value, or a throwable it raised. */
  datatype Outcome = Returned(value: Value) | Threw(thrown: Throwable)
}
