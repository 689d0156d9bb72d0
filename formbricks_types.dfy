/** The SDK object a loaded script leaves in `globalThis.formbricks`, seen from outside. */
module FormbricksTypes {

  /**
   * A handle: the names of its properties that are functions, and the names
   * among those whose call throws synchronously (every other method returns
   * a promise, whose settling the loader either awaits or ignores).
   */
  datatype Handle = Handle(methods: set<string>, throwing: set<string>)

  /** The method names the SDK interface declares. */
  const InterfaceMethods: set<string> := {
    "init", "setup", "setEmail", "setAttribute", "setAttributes", "setLanguage",
    "setUserId", "setNonce", "track", "logout", "registerRouteChange"
  }
}
