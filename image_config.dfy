/** The `configCommand` of the `registryImageConfig` directive: the command
    line an image runs, behind a shell prompt that shows whether it runs as
    root. */
module ImageConfig {
  import opened Records
  import opened Strings

  /** The words of the command: Entrypoint, then Cmd. */
  function Words(config: Config): seq<string> {
    config.entrypoint.GetOr([]) + config.cmd.GetOr([])
  }

  /** "$ " when `User` is set (non-empty) and its part before the first ":"
      is not "root", "# " otherwise. */
  function Prompt(user: Option<string>): (prompt: string)
    ensures prompt == "$ " || prompt == "# "
  {
    if user.Some? && user.value != "" && Split(user.value, ':')[0] != "root" then "$ " else "# "
  }

  /** `configCommand(config)`: "" without a config, otherwise the prompt and
      the command words separated by single spaces. */
  function ConfigCommand(config: Option<Config>): (line: string)
    ensures config.None? <==> line == ""
    ensures config.Some? ==> |line| >= 2 && line[..2] == Prompt(config.value.user) && line[2..] == Join(Words(config.value), ' ')
  {
    match config
    case None => ""
    case Some(c) => Prompt(c.user) + Join(Words(c), ' ')
  }

  /** The root prompt "# " is shown exactly when `User` is absent or empty,
      is "root", or starts with "root:" (root with a group). */
  lemma RootPrompt(user: Option<string>)
    ensures Prompt(user) == "# " <==>
      user.None? || user.value == "" || user.value == "root" ||
      (|user.value| > 4 && user.value[..5] == "root:")
  {
    if user.Some? {
      SplitHead(user.value, ':', "root");
      assert "root" + [':'] == "root:";
    }
  }

  /** The command line reads back: when there is at least one word and no
      word holds a space, splitting what follows the prompt on spaces gives
      the words. */
  lemma CommandWordsRoundTrip(config: Config)
    requires |Words(config)| > 0
    requires forall i | 0 <= i < |Words(config)| :: ' ' !in Words(config)[i]
    ensures Split(ConfigCommand(Some(config))[2..], ' ') == Words(config)
  {
    SplitJoin(Words(config), ' ');
  }
}
