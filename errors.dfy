/**
 * The exceptions the container throws, one constructor per throw site.
 * Message texts are not modelled; the data a message is built from is kept.
 */
module Errors {

  /** The operation whose name `ProcessKey` puts into an invalid-key exception. */
  datatype KeyOp =
    | ContainerService   // DependencyInjectionContainer::service
    | ContainerAdd       // DependencyInjectionContainer::add
    | ContainerGet       // DependencyInjectionContainer::get
    | RepositoryPush     // Repository::push
    | RepositoryHas      // Repository::has
    | RepositoryPull     // Repository::pull

  datatype Error =
    | InvalidKey(op: KeyOp)                        // DependencyInjectionException::InvalidKey
    | CannotStore(typeName: string)                // add() with neither an object nor a string
    | NotAnObject                                  // Repository::push with a non-object
    | NoInstance(key: string)                      // Repository::pull with an absent key
    | InvalidClassName(key: string)                // Service::class with a bad class name
    | InvalidMethodName                            // ServiceInjectMethod with a bad name
    | InvalidPropertyName                          // ServiceInjectProps::add with a bad name
    | ClassNotFound(key: string, className: string) // Service::createInstance, no usable class
    | DepthExceeded                                // nested plans deeper than the fuel bound
}
