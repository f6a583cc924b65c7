/** Clients of the engine: what a caller can conclude from the engine's contracts alone. */
module Scenarios {
  import opened Wrappers
  import opened Pipelines
  import opened Runs
  import opened Core

  /** The setup a configurator sees on a new engine. */
  function Blank(): Setup
  {
    Setup([], map[])
  }

  /**
   * Executing a new engine twice configures it once, with defaults: the first run reports
   * how that configuration went, the second never configures again, even after a failed
   * configuration, and leaves its documents in place of the first run's rather than after them.
   */
  method ExecuteTwice(configurator: Configurator, currentDirectory: string)
    returns (r1: Outcome<EngineError>, first: seq<Document>, r2: Outcome<EngineError>, second: seq<Document>)
    ensures r1 == OutcomeOf(configurator.configure(None, Blank())) && r2 == Pass
    ensures second == Concat(configurator.configure(None, Blank()).setup.pipelines)
    ensures r1 == Pass ==> first == second
  {
    var engine := new Engine(currentDirectory);
    r1 := engine.Execute(configurator);
    first := engine.completedDocuments;
    r2 := engine.Execute(configurator);
    second := engine.completedDocuments;
  }

  /**
   * A second Configure throws the already-configured error and keeps the pipelines and
   * metadata the first one produced, even when the first configuration itself threw.
   */
  method ConfigureTwice(configurator: Configurator, script: Option<string>, again: Option<string>)
    returns (r2: Outcome<EngineError>, setup: Setup)
    ensures r2 == Fail(InvalidOperation(AlreadyConfiguredMessage))
    ensures setup == configurator.configure(script, Blank()).setup
  {
    var engine := new Engine("/");
    var r1 := engine.Configure(configurator, script);
    r2 := engine.Configure(configurator, again);
    setup := engine.State();
  }

  /**
   * Empty, blank and absent root folders are refused and leave the working directory in
   * place; an ordinary path is stored and read back.
   */
  method RootFolderUpdates(currentDirectory: string)
    returns (empty: Outcome<EngineError>, blank: Outcome<EngineError>, absent: Outcome<EngineError>,
             kept: string, stored: Outcome<EngineError>, folder: string)
    ensures empty == blank == absent == Fail(Argument("RootFolder"))
    ensures kept == currentDirectory
    ensures stored == Pass && folder == "/srv/site"
  {
    var engine := new Engine(currentDirectory);
    empty := engine.SetRootFolder(Some(""));
    blank := engine.SetRootFolder(Some(" "));
    absent := engine.SetRootFolder(None);
    kept := engine.rootFolder;
    assert !IsWhiteSpace("/srv/site"[0]);
    stored := engine.SetRootFolder(Some("/srv/site"));
    folder := engine.rootFolder;
  }
}
