/** Values shared by the dispatcher and by the transactional traversal. */
module TxTypes {

  /** A Java reference that may be null. */
  datatype Option<+T> = None | Some(value: T)

  /** A Java Throwable, identified by its class and message: relaying an error
      verbatim means handing on an equal value. */
  datatype Throwable = Throwable(className: string, message: string)

  /** How a Java call ended: it returned a value, or it threw. */
  datatype Completion<+T> = Normal(value: T) | Thrown(error: Throwable)

  /** The declared return type of an intercepted method, reduced to the two
      classes `invoke` compares it with. */
  datatype ReturnType = TraversableType | EmittableType | OtherType

  type ClassName = string

  /** The reflection handle of an intercepted method. */
  datatype MethodRef = MethodRef(declaringClass: ClassName, name: string, returnType: ReturnType)

  /** Spring's TransactionAttribute. Only a DefaultTransactionAttribute (and its
      subclasses) carries a descriptor, which may itself be null. */
  datatype TxAttribute =
    | DefaultAttribute(qualifier: Option<string>, descriptor: Option<string>)
    | OtherAttribute(qualifier: Option<string>)

  /** A resolved TransactionManager: either a PlatformTransactionManager
      (synchronous demarcation) or some other kind, such as a reactive one. */
  datatype TransactionManager = PlatformManager(name: string) | ReactiveManager(name: string)

  /** Spring's ClassUtils.getQualifiedMethodName(method, clazz): the name of the
      given class, or of the declaring class when none is given, a dot, and the
      method's name. It never yields null. */
  function QualifiedMethodName(m: MethodRef, targetClass: Option<ClassName>): string
  {
    (if targetClass.Some? then targetClass.value else m.declaringClass) + "." + m.name
  }
}
