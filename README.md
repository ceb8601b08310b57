# easy-rmi: the remote invocation handler

This project models `RemoteInvocationHandler`, the abstract base of easy-rmi's
proxy invocation handlers, and proves properties of the model.

The handler is built for one remote interface. It keeps that interface's public
methods (`apiMethods`). Every call made on the proxy reaches `invoke`, which does
one of three things:

- it forwards a method of the remote interface to the abstract `invokeRemote`;
- it runs a method that the handler's own class declares or inherits (`toString`,
  `equals`, `hashCode` of `Object`) reflectively on the handler;
- it throws an `UnsupportedOperationException` for any other method.

Whatever is thrown inside that cascade is normalised:

- an `InvocationTargetException` is unwrapped one level, and its target is
  rethrown as it is;
- any other `Exception` goes through `getMethodCompatibleException`. That method
  returns the exception itself when a declared exception type of the method
  accepts it. Otherwise it returns a new `RemoteException` when some declared
  type accepts `RemoteException`, and a new `RuntimeException` when none does;
- throwables that are not `Exception`s (such as `Error`s) pass through.

Files:

- `java_lang.dfy`, module `JavaLang`: the Java runtime as the handler sees it.
  Classes are indices into a finite universe; `supers[c]` lists the direct
  supertypes of `c` (superclass and interfaces), so `IsAssignableFrom` is the
  reflexive-transitive supertype relation over a DAG, with `Object` a supertype
  of every class and interface. `Hierarchy.Valid` fixes the classes the handler
  relies on, from java.lang, java.lang.reflect, java.io and java.rmi, with their
  real superclasses (the
  interfaces they implement, such as `Serializable`, are not listed).
  Throwables are values with a class, a detail message and a cause.
- `remote_invocation_handler.dfy`, module `EasyRmi`: the translation policy as a
  declarative function (`CompatibleException`), the handler class with its
  constructor, `Invoke` and the translation loop `GetMethodCompatibleException`,
  and lemmas about the policy.

The two calls `invoke` makes are methods of the handler class: `InvokeRemote`
stands for `invokeRemote` and `InvokeOwnMethod` for `method.invoke(this, args)`.
What they produce is given by two function-valued fields, `remote` and `local`.
Each of them appends the call to the ghost field `log`. `Invoke`'s contract
gives the new `log` in terms of the old one, so a second call, or a call on the
wrong path, breaks the contract.

Three details of the code are easy to miss:

- Failures of the local path are translated like those of the remote path. The
  `try` covers both paths.
- The unwrapped target of an `InvocationTargetException` is rethrown without
  translation.
- The `UnsupportedOperationException` is thrown inside the `try`, so it is itself
  translated. Unless the method declares a supertype of it, the caller receives
  a `RuntimeException` or a `RemoteException` that wraps it.

## Model

| member | source | states |
|---|---|---|
| `EasyRmi.RemoteInvocationHandler.constructor` | easy-rmi/src/main/java/easyrmi/RemoteInvocationHandler.java:29-32 | the handler keeps the remote interface, its public methods and its own runtime class, fixed for its lifetime (all three are `const` fields); it starts with no calls made |
| `EasyRmi.RemoteInvocationHandler.Invoke` | easy-rmi/src/main/java/easyrmi/RemoteInvocationHandler.java:43-60 | an interface method is forwarded to `invokeRemote` exactly once and nothing else is called, even if the handler also has the method; another method that the handler's class has (every method of `Object` among them) runs locally exactly once, and `invokeRemote` is not called; any other method calls neither (the call log is unchanged) and ends in the translated `UnsupportedOperationException`; a returned value is passed back unchanged; an `InvocationTargetException` from either path is unwrapped one level and its target rethrown untranslated (a missing target gives a `NullPointerException`); any other `Exception` is replaced by its translation; other throwables propagate unchanged (the last four as the predicate `Settles`, applied to the outcome of the path that ran) |
| `EasyRmi.RemoteInvocationHandler.GetMethodCompatibleException` | easy-rmi/src/main/java/easyrmi/RemoteInvocationHandler.java:78-93 | the scan in declaration order, with its early exit and its remembered `RemoteException`, always returns exactly the exception the declarative policy `CompatibleException` prescribes; the result is never null |
| `EasyRmi.CompatibleException` | easy-rmi/src/main/java/easyrmi/RemoteInvocationHandler.java:78-93 | the result is the very same `e` exactly when some declared type is assignable from `e`'s class; otherwise it is new, carries `e`'s message and has `e` as cause, and it is a `RemoteException` exactly when some declared type is assignable from `RemoteException`, and a `RuntimeException` exactly when none is; the result is always an instance of a declared type or a `RuntimeException` |
| `EasyRmi.CompatibleExceptionIgnoresOrder` | easy-rmi/src/main/java/easyrmi/RemoteInvocationHandler.java:80-88 | two lists holding the same declared exception types, in any order and with any repetitions, give the same translated exception: which of the three outcomes occurs does not depend on declaration order |
| `EasyRmi.LaterMatchWins` | easy-rmi/src/main/java/easyrmi/RemoteInvocationHandler.java:80-87 | a declared type that accepts `e` wins even when a `RemoteException`-compatible type is declared before it: `e` is returned unchanged |
| `EasyRmi.AcceptsSubclasses` | easy-rmi/src/main/java/easyrmi/RemoteInvocationHandler.java:81-83 | once a declared type accepts some exception class, exceptions of every subclass of it are returned unchanged |
| `EasyRmi.CompatibleExceptionIsException` | easy-rmi/src/main/java/easyrmi/RemoteInvocationHandler.java:78-93 | with the real java.lang classes, translating an `Exception` yields an `Exception`, as the method's return type promises |
| `EasyRmi.FetchScenario` | easy-rmi/src/main/java/easyrmi/RemoteInvocationHandler.java:78-93 | for `fetch throws NotFound, RemoteException`: a `NotFound` comes back unchanged and a transport `Timeout` (an `IOException`) becomes a `RemoteException` around it; declaring only `NotFound`, the `Timeout` becomes a `RuntimeException` around it |
| `EasyRmi.HandlerThrowsOnlyDeclaredOrUnchecked` | easy-rmi/src/main/java/easyrmi/RemoteInvocationHandler.java:54-58 | apart from an unwrapped invocation target, an `Exception` that reaches the caller is an instance of a declared exception type or a `RuntimeException`; anything else thrown is the attempted call's own non-`Exception` throwable |
| `JavaLang.UnsupportedOperationIsPlainException` | easy-rmi/src/main/java/easyrmi/RemoteInvocationHandler.java:53-58 | the refusal is caught by the `catch (Exception)` clause and not by the `catch (InvocationTargetException)` clause, so it goes through translation |
| `JavaLang.Wrap` | easy-rmi/src/main/java/easyrmi/RemoteInvocationHandler.java:85-90 | `new RemoteException(e.getMessage(), e)` and `new RuntimeException(e.getMessage(), e)` carry `e`'s message, have `e` as cause, and are never `e` itself |
| `JavaLang.IsAssignableFrom` | easy-rmi/src/main/java/easyrmi/RemoteInvocationHandler.java:50-85 | `Class.isAssignableFrom` as used at :50, :81 and :85: the reflexive-transitive supertype relation, with `Object` above every class; a supertype never has a larger index than its subtypes, which keeps the relation acyclic |
| `JavaLang.AssignableTransitive` | easy-rmi/src/main/java/easyrmi/RemoteInvocationHandler.java:81 | `isAssignableFrom` is transitive: a supertype of a supertype of a class is a supertype of that class |

## Left out

- Reflection itself: `classType.getMethods()` is an input of the constructor, and
  what calling a method reflectively on the handler produces is the `local`
  field. The handler's runtime class (`getClass()`) is a constructor input too.
- `invokeRemote`: it is abstract; its transport and serialisation live in
  subclasses. What it produces is the `remote` field. A function value gives
  the same outcome for the same call; a real transport need not.
- Calls that the handler's own methods make while they run reflectively (a
  subclass's `toString` calling `invokeRemote`, say) are not in the log.
- Logging through SLF4J and the debug formatter `toString(Method, Object[])`: a
  diagnostic side channel. With debug logging enabled, the formatter calls every
  argument's own `toString()`; an exception thrown there leaves `invoke` in place
  of the translated one. The model does not capture this.
- The handler's `toString()` and the message texts built from
  `Class.toString()` and `Method.toString()`. The refusal message is the
  abstract `UnsupportedCall(classType, method)`.
- `getClassType()`: it only returns the `classType` field, which the model
  exposes as a `const`.
- Object identity: exceptions, methods and values are compared as values. A new
  `RemoteException` or `RuntimeException` is told apart from `e` because it has
  `e` as its cause.
- `Method.equals` compares declaring class, name, parameter types and return type
  only. The model compares the exception types too, which a single declared
  method determines anyway.
- Overrides of `getMessage()`: the handler passes `e.getMessage()` to the new
  exception, and any class of `e` may override that method (`RemoteException`'s
  own override appends the nested exception's text). The model always uses the
  stored detail message.
- A null argument array (a method without parameters) is the empty sequence.
- What happens after `invoke` throws: the JDK proxy wraps an undeclared checked
  exception in an `UndeclaredThrowableException`. That is proxy plumbing, not
  this class.
- Concurrency: the handler's fields are final and `invoke` keeps no state between
  calls.
