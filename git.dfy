/** src/git.rs: reading the git identity and making the first commit. Each git
    subprocess is an oracle `git` giving the outcome of `git <args>` in the
    target directory. */
module Git {
  import opened Errors
  import opened Text
  import opened Utilities

  /** What a git ref names; the classifier is not part of this model. */
  datatype RefKind = Branch | Tag | Commit

  const NAME_HINT: string := "  git config --global user.name \"Your Name\""
  const EMAIL_HINT: string := "  git config --global user.email \"you@example.com\""

  /** `git_config_get`: exit status 1 means the key is unset and reads as "",
      any other failure is an error, success gives the trimmed output. */
  function GitConfigGet(key: string, outcome: ProcessOutput): (r: Result<string>)
    ensures outcome.SpawnFailed? ==> r == Err(Context("failed to execute git", External("io")))
    ensures outcome.Exited? && outcome.code == Some(1) ==> r == Ok("")
    ensures outcome.Exited? && outcome.code != Some(1) && !outcome.Success() ==> r == Err(Message("git config " + key + " failed"))
    ensures outcome.Success() ==> r == Ok(Trim(outcome.stdout))
    ensures r.Ok? <==> outcome.Exited? && (outcome.code == Some(1) || outcome.Success())
  {
    if outcome.SpawnFailed? then Err(Context("failed to execute git", External("io")))
    else if outcome.code == Some(1) then Ok("")
    else if !outcome.Success() then Err(Message("git config " + key + " failed"))
    else Ok(Trim(outcome.stdout))
  }

  /** The setup hints for the identity settings that are empty, name first. */
  function MissingHints(name: string, email: string): (r: seq<string>)
    ensures NAME_HINT in r <==> name == ""
    ensures EMAIL_HINT in r <==> email == ""
    ensures r == [] <==> name != "" && email != ""
    ensures |r| == 2 ==> r == [NAME_HINT, EMAIL_HINT]
  {
    (if name == "" then [NAME_HINT] else []) + (if email == "" then [EMAIL_HINT] else [])
  }

  /** What `check_user_config` decides, given the two `git config` outcomes. */
  function IdentityCheck(nameOutcome: ProcessOutput, emailOutcome: ProcessOutput): Result<()>
  {
    match GitConfigGet("user.name", nameOutcome)
    case Err(e) => Err(e)
    case Ok(name) =>
      match GitConfigGet("user.email", emailOutcome)
      case Err(e) => Err(e)
      case Ok(email) =>
        var missing := MissingHints(name, email);
        if missing != [] then Err(Message("git identity not set; run:\n" + Join(missing, "\n"))) else Ok(())
  }

  /** The identity check passes exactly when both settings read back
      non-empty. */
  lemma IdentityCheckSpec(nameOutcome: ProcessOutput, emailOutcome: ProcessOutput)
    ensures IdentityCheck(nameOutcome, emailOutcome).Ok? <==>
      && GitConfigGet("user.name", nameOutcome).Ok? && GitConfigGet("user.name", nameOutcome).value != ""
      && GitConfigGet("user.email", emailOutcome).Ok? && GitConfigGet("user.email", emailOutcome).value != ""
    ensures GitConfigGet("user.name", nameOutcome).Err? ==>
      IdentityCheck(nameOutcome, emailOutcome) == Err(GitConfigGet("user.name", nameOutcome).error)
  {
  }

  /** An exit status of 1 from `git config` (key unset) always fails the
      check with the name hint listed first. */
  lemma UnsetNameIsReported(emailOutcome: ProcessOutput, stderr: string, stdout: string)
    requires GitConfigGet("user.email", emailOutcome).Ok?
    ensures IdentityCheck(Exited(Some(1), stdout, stderr), emailOutcome).Err?
    ensures var m := IdentityCheck(Exited(Some(1), stdout, stderr), emailOutcome).error;
      m.Message? && StartsWith(m.text, "git identity not set; run:\n" + NAME_HINT)
  {
    var email := GitConfigGet("user.email", emailOutcome).value;
    var missing := MissingHints("", email);
    assert missing[0] == NAME_HINT;
    if |missing| == 1 {
      assert Join(missing, "\n") == NAME_HINT;
    } else {
      assert Join(missing, "\n") == NAME_HINT + "\n" + Join(missing[1..], "\n");
    }
  }

  /** `check_user_config`: read both settings, then collect a hint for each
      empty one. */
  method CheckUserConfig(git: seq<string> -> ProcessOutput) returns (r: Result<()>, ran: seq<seq<string>>)
    ensures r == IdentityCheck(git(["config", "user.name"]), git(["config", "user.email"]))
    // The email is read only after the name was read without error.
    ensures ran == [["config", "user.name"]] || ran == [["config", "user.name"], ["config", "user.email"]]
    ensures |ran| == 2 <==> GitConfigGet("user.name", git(["config", "user.name"])).Ok?
    ensures r.Ok? ==> ran == CONFIG_QUERIES
  {
    ran := [["config", "user.name"]];
    var name := GitConfigGet("user.name", git(["config", "user.name"]));
    if name.Err? {
      return Err(name.error), ran;
    }
    ran := ran + [["config", "user.email"]];
    var email := GitConfigGet("user.email", git(["config", "user.email"]));
    if email.Err? {
      return Err(email.error), ran;
    }
    var missing: seq<string> := [];
    if name.value == "" {
      missing := missing + [NAME_HINT];
    }
    if email.value == "" {
      missing := missing + [EMAIL_HINT];
    }
    if missing != [] {
      return Err(Message("git identity not set; run:\n" + Join(missing, "\n"))), ran;
    }
    r := Ok(());
  }

  /** `run_git`: a failed command is reported with its arguments and its
      standard error. */
  function RunGit(args: seq<string>, outcome: ProcessOutput): (r: Result<()>)
    ensures r.Ok? <==> outcome.Success()
    ensures outcome.SpawnFailed? ==> r == Err(Context("failed to execute git", External("io")))
    ensures outcome.Exited? && !outcome.Success() ==>
      r == Err(Message("git " + Join(args, " ") + " failed: " + outcome.stderr))
  {
    if outcome.SpawnFailed? then Err(Context("failed to execute git", External("io")))
    else if !outcome.Success() then Err(Message("git " + Join(args, " ") + " failed: " + outcome.stderr))
    else Ok(())
  }

  /** `run_git` with the context one of the three steps adds on failure. */
  function GitStep(args: seq<string>, context: string, outcome: ProcessOutput): (r: Result<()>)
    ensures outcome.Success() ==> r == Ok(())
    ensures !outcome.Success() ==> r == Err(Context(context, RunGit(args, outcome).error))
  {
    match RunGit(args, outcome)
    case Ok(_) => Ok(())
    case Err(e) => Err(Context(context, e))
  }

  /** The message `initial_commit` passes to `git commit -m`. */
  function InitialCommitMessage(templateName: string): (r: string)
    ensures StartsWith(r, "Initial commit from template: ")
    ensures r[|"Initial commit from template: "|..] == templateName
  {
    "Initial commit from template: " + templateName
  }

  /** Different templates give different commit messages. */
  lemma InitialCommitMessageInjective(a: string, b: string)
    requires InitialCommitMessage(a) == InitialCommitMessage(b)
    ensures a == b
  {
    assert a == InitialCommitMessage(a)[|"Initial commit from template: "|..];
  }

  /** The commands `init_and_commit` runs once the identity check passed. */
  function CommitCommands(templateName: string): (r: seq<seq<string>>)
  {
    [["init"], ["add", "-A"], ["commit", "-m", InitialCommitMessage(templateName)]]
  }

  /** The commands issued after the identity check: each runs only when the
      one before it succeeded. */
  function CommitTrace(templateName: string, git: seq<string> -> ProcessOutput): (r: seq<seq<string>>)
    ensures 1 <= |r| <= 3 && r == CommitCommands(templateName)[..|r|]
    ensures forall i :: 0 <= i < |r| - 1 ==> git(r[i]).Success()
    ensures |r| < 3 ==> !git(r[|r| - 1]).Success()
  {
    var commands := CommitCommands(templateName);
    if !git(commands[0]).Success() then commands[..1]
    else if !git(commands[1]).Success() then commands[..2]
    else commands
  }

  /** The outcome after the identity check: the error of the first failing
      command, with its context, or success when all three succeed. */
  function CommitResult(templateName: string, git: seq<string> -> ProcessOutput): (r: Result<()>)
    ensures var trace := CommitTrace(templateName, git);
      && (r.Ok? <==> |trace| == 3 && git(trace[2]).Success())
      && (r.Err? ==> r == GitStep(trace[|trace| - 1], CommitContext(|trace| - 1), git(trace[|trace| - 1])))
  {
    var commands := CommitCommands(templateName);
    if !git(commands[0]).Success() then GitStep(commands[0], CommitContext(0), git(commands[0]))
    else if !git(commands[1]).Success() then GitStep(commands[1], CommitContext(1), git(commands[1]))
    else GitStep(commands[2], CommitContext(2), git(commands[2]))
  }

  /** The context each of the three steps adds to its failure. */
  function CommitContext(i: nat): string
  {
    if i == 0 then "git init failed" else if i == 1 then "git add -A failed" else "git commit failed"
  }

  const CONFIG_QUERIES: seq<seq<string>> := [["config", "user.name"], ["config", "user.email"]]

  /** `init_and_commit`: check the identity, then init, add and commit,
      stopping at the first failure. `ran` lists the git commands issued. */
  method InitAndCommit(templateName: string, git: seq<string> -> ProcessOutput) returns (r: Result<()>, ran: seq<seq<string>>)
    ensures var identity := IdentityCheck(git(["config", "user.name"]), git(["config", "user.email"]));
      && (identity.Err? ==> r == identity && |ran| <= 2 && ["init"] !in ran)
      && (identity.Ok? ==> ran == CONFIG_QUERIES + CommitTrace(templateName, git) && r == CommitResult(templateName, git))
  {
    var identity;
    identity, ran := CheckUserConfig(git);
    if identity.Err? {
      return identity, ran;
    }
    var commands := CommitCommands(templateName);
    r := GitStep(commands[0], CommitContext(0), git(commands[0]));
    if r.Err? {
      return r, CONFIG_QUERIES + commands[..1];
    }
    r := GitStep(commands[1], CommitContext(1), git(commands[1]));
    if r.Err? {
      return r, CONFIG_QUERIES + commands[..2];
    }
    r := GitStep(commands[2], CommitContext(2), git(commands[2]));
    if r.Err? {
      return r, CONFIG_QUERIES + commands;
    }
    r, ran := Ok(()), CONFIG_QUERIES + commands;
  }
}
