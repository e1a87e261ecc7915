/** check_tokens of homework.py: the three required configuration values. */
module Config {
  import opened Wrappers

  /** The values read from the environment; None when a variable is unset. */
  datatype Env = Env(practicumToken: Option<string>, telegramToken: Option<string>, chatId: Option<string>)

  /** All three values are set (an empty string counts as set). */
  predicate Complete(env: Env) {
    env.practicumToken.Some? && env.telegramToken.Some? && env.chatId.Some?
  }

  /** How many of `vars` are set. */
  function Present(vars: seq<Option<string>>): (n: nat)
    ensures n <= |vars|
  {
    if vars == [] then 0 else Present(vars[..|vars| - 1]) + (if vars[|vars| - 1].Some? then 1 else 0)
  }

  /** All of `vars` are set exactly when they are all counted. */
  lemma {:induction false} PresentAll(vars: seq<Option<string>>)
    ensures Present(vars) == |vars| <==> forall k :: 0 <= k < |vars| ==> vars[k].Some?
  {
    if vars != [] {
      var init := vars[..|vars| - 1];
      PresentAll(init);
      assert forall k :: 0 <= k < |init| ==> init[k] == vars[k];
    }
  }

  /** check_tokens: counts the values that are not None and succeeds when
      all of them are. */
  method CheckTokens(env: Env) returns (ok: bool)
    ensures ok <==> Complete(env)
  {
    var vars := [env.practicumToken, env.telegramToken, env.chatId];
    var count := 0;
    for i := 0 to |vars|
      invariant count == Present(vars[..i])
    {
      assert vars[..i + 1][..i] == vars[..i];
      if vars[i].Some? {
        count := count + 1;
      }
    }
    assert vars[..|vars|] == vars;
    PresentAll(vars);
    assert Complete(env) <==> vars[0].Some? && vars[1].Some? && vars[2].Some?;
    ok := |vars| == count;
  }
}
