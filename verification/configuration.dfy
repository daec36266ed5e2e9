/**
 The global configuration object of lib/batchy/configuration.rb.

 Every option is stored as given (`nil` when never set) and read through a
 getter that falls back to the option's default when the stored value is
 `nil`. Storing `false` is not the same as storing `nil`: the getter then
 returns `false`. The four global callback lists only grow.
 */
module Configuration {
  import opened Wrappers
  import opened Callbacks

  datatype Config = Config(
    allowDuplicates: Option<bool>,
    raiseErrors: Option<bool>,
    nameProcess: Option<bool>,
    allowMassSigkill: Option<bool>,
    processNamePrefix: Option<string>,
    globalSuccessCallbacks: seq<Callback>,
    globalFailureCallbacks: seq<Callback>,
    globalEnsureCallbacks: seq<Callback>,
    globalIgnoreCallbacks: seq<Callback>)

  const DefaultAllowDuplicates := true
  const DefaultRaiseErrors := false
  const DefaultNameProcess := true
  const DefaultAllowMassSigkill := false
  const DefaultProcessNamePrefix := "[BATCHY]"

  /** `Configuration.new`: no option set, four empty global callback lists. */
  function NewConfig(): (c: Config)
    ensures |c.globalSuccessCallbacks| == |c.globalFailureCallbacks| == 0
    ensures |c.globalEnsureCallbacks| == |c.globalIgnoreCallbacks| == 0
    ensures AllowDuplicates(c) == DefaultAllowDuplicates
    ensures RaiseErrors(c) == DefaultRaiseErrors
    ensures NameProcess(c) == DefaultNameProcess
    ensures AllowMassSigkill(c) == DefaultAllowMassSigkill
    ensures ProcessNamePrefix(c) == DefaultProcessNamePrefix
  {
    Config(None, None, None, None, None, [], [], [], [])
  }

  // Getters: the stored value, or the default when it is nil.

  function AllowDuplicates(c: Config): bool
  {
    c.allowDuplicates.GetOr(DefaultAllowDuplicates)
  }

  function RaiseErrors(c: Config): bool
  {
    c.raiseErrors.GetOr(DefaultRaiseErrors)
  }

  function NameProcess(c: Config): bool
  {
    c.nameProcess.GetOr(DefaultNameProcess)
  }

  function AllowMassSigkill(c: Config): bool
  {
    c.allowMassSigkill.GetOr(DefaultAllowMassSigkill)
  }

  function ProcessNamePrefix(c: Config): string
  {
    c.processNamePrefix.GetOr(DefaultProcessNamePrefix)
  }

  /** The four global callback lists of `c` and `d` are equal. */
  predicate SameCallbacks(c: Config, d: Config)
  {
    && c.globalSuccessCallbacks == d.globalSuccessCallbacks
    && c.globalFailureCallbacks == d.globalFailureCallbacks
    && c.globalEnsureCallbacks == d.globalEnsureCallbacks
    && c.globalIgnoreCallbacks == d.globalIgnoreCallbacks
  }

  // Setters (`attr_writer`): a non-nil value is read back exactly, nil restores the default,
  // and every other option and list is left as it was.

  function SetAllowDuplicates(c: Config, v: Option<bool>): (d: Config)
    ensures v.Some? ==> AllowDuplicates(d) == v.value
    ensures v.None? ==> AllowDuplicates(d) == DefaultAllowDuplicates
    ensures RaiseErrors(d) == RaiseErrors(c) && NameProcess(d) == NameProcess(c)
    ensures AllowMassSigkill(d) == AllowMassSigkill(c) && ProcessNamePrefix(d) == ProcessNamePrefix(c)
    ensures SameCallbacks(c, d)
  {
    c.(allowDuplicates := v)
  }

  function SetRaiseErrors(c: Config, v: Option<bool>): (d: Config)
    ensures v.Some? ==> RaiseErrors(d) == v.value
    ensures v.None? ==> RaiseErrors(d) == DefaultRaiseErrors
    ensures AllowDuplicates(d) == AllowDuplicates(c) && NameProcess(d) == NameProcess(c)
    ensures AllowMassSigkill(d) == AllowMassSigkill(c) && ProcessNamePrefix(d) == ProcessNamePrefix(c)
    ensures SameCallbacks(c, d)
  {
    c.(raiseErrors := v)
  }

  function SetNameProcess(c: Config, v: Option<bool>): (d: Config)
    ensures v.Some? ==> NameProcess(d) == v.value
    ensures v.None? ==> NameProcess(d) == DefaultNameProcess
    ensures AllowDuplicates(d) == AllowDuplicates(c) && RaiseErrors(d) == RaiseErrors(c)
    ensures AllowMassSigkill(d) == AllowMassSigkill(c) && ProcessNamePrefix(d) == ProcessNamePrefix(c)
    ensures SameCallbacks(c, d)
  {
    c.(nameProcess := v)
  }

  function SetAllowMassSigkill(c: Config, v: Option<bool>): (d: Config)
    ensures v.Some? ==> AllowMassSigkill(d) == v.value
    ensures v.None? ==> AllowMassSigkill(d) == DefaultAllowMassSigkill
    ensures AllowDuplicates(d) == AllowDuplicates(c) && RaiseErrors(d) == RaiseErrors(c)
    ensures NameProcess(d) == NameProcess(c) && ProcessNamePrefix(d) == ProcessNamePrefix(c)
    ensures SameCallbacks(c, d)
  {
    c.(allowMassSigkill := v)
  }

  function SetProcessNamePrefix(c: Config, v: Option<string>): (d: Config)
    ensures v.Some? ==> ProcessNamePrefix(d) == v.value
    ensures v.None? ==> ProcessNamePrefix(d) == DefaultProcessNamePrefix
    ensures AllowDuplicates(d) == AllowDuplicates(c) && RaiseErrors(d) == RaiseErrors(c)
    ensures NameProcess(d) == NameProcess(c) && AllowMassSigkill(d) == AllowMassSigkill(c)
    ensures SameCallbacks(c, d)
  {
    c.(processNamePrefix := v)
  }

  /** The five option getters agree on `c` and `d`. */
  predicate SameOptions(c: Config, d: Config)
  {
    && AllowDuplicates(c) == AllowDuplicates(d)
    && RaiseErrors(c) == RaiseErrors(d)
    && NameProcess(c) == NameProcess(d)
    && AllowMassSigkill(c) == AllowMassSigkill(d)
    && ProcessNamePrefix(c) == ProcessNamePrefix(d)
  }

  // `add_global_*_callback`: append one entry at the end of one list; nothing else changes.

  function AddGlobalSuccessCallback(c: Config, cb: Callback): (d: Config)
    ensures |d.globalSuccessCallbacks| == |c.globalSuccessCallbacks| + 1
    ensures d.globalSuccessCallbacks[..|c.globalSuccessCallbacks|] == c.globalSuccessCallbacks
    ensures d.globalSuccessCallbacks[|c.globalSuccessCallbacks|] == cb
    ensures d.globalFailureCallbacks == c.globalFailureCallbacks
    ensures d.globalEnsureCallbacks == c.globalEnsureCallbacks
    ensures d.globalIgnoreCallbacks == c.globalIgnoreCallbacks
    ensures SameOptions(c, d)
  {
    c.(globalSuccessCallbacks := c.globalSuccessCallbacks + [cb])
  }

  function AddGlobalFailureCallback(c: Config, cb: Callback): (d: Config)
    ensures |d.globalFailureCallbacks| == |c.globalFailureCallbacks| + 1
    ensures d.globalFailureCallbacks[..|c.globalFailureCallbacks|] == c.globalFailureCallbacks
    ensures d.globalFailureCallbacks[|c.globalFailureCallbacks|] == cb
    ensures d.globalSuccessCallbacks == c.globalSuccessCallbacks
    ensures d.globalEnsureCallbacks == c.globalEnsureCallbacks
    ensures d.globalIgnoreCallbacks == c.globalIgnoreCallbacks
    ensures SameOptions(c, d)
  {
    c.(globalFailureCallbacks := c.globalFailureCallbacks + [cb])
  }

  function AddGlobalIgnoreCallback(c: Config, cb: Callback): (d: Config)
    ensures |d.globalIgnoreCallbacks| == |c.globalIgnoreCallbacks| + 1
    ensures d.globalIgnoreCallbacks[..|c.globalIgnoreCallbacks|] == c.globalIgnoreCallbacks
    ensures d.globalIgnoreCallbacks[|c.globalIgnoreCallbacks|] == cb
    ensures d.globalSuccessCallbacks == c.globalSuccessCallbacks
    ensures d.globalFailureCallbacks == c.globalFailureCallbacks
    ensures d.globalEnsureCallbacks == c.globalEnsureCallbacks
    ensures SameOptions(c, d)
  {
    c.(globalIgnoreCallbacks := c.globalIgnoreCallbacks + [cb])
  }

  function AddGlobalEnsureCallback(c: Config, cb: Callback): (d: Config)
    ensures |d.globalEnsureCallbacks| == |c.globalEnsureCallbacks| + 1
    ensures d.globalEnsureCallbacks[..|c.globalEnsureCallbacks|] == c.globalEnsureCallbacks
    ensures d.globalEnsureCallbacks[|c.globalEnsureCallbacks|] == cb
    ensures d.globalSuccessCallbacks == c.globalSuccessCallbacks
    ensures d.globalFailureCallbacks == c.globalFailureCallbacks
    ensures d.globalIgnoreCallbacks == c.globalIgnoreCallbacks
    ensures SameOptions(c, d)
  {
    c.(globalEnsureCallbacks := c.globalEnsureCallbacks + [cb])
  }
}
