/**
 * The part of the GeoGebra applet API the scripts talk to, abstracted as a log of the
 * calls they make plus an oracle for what a creation command returns.
 */
module Host {

  /** An object label in the applet (a GeoGebra object name such as `F_{D1}`). */
  type Label = string

  /** What `evalCommandGetLabels` hands back: a comma-separated label list, or a non-string. */
  datatype EvalResult = Labels(text: string) | NotAString

  /** One call into the applet API, as the scripts issue it. */
  datatype HostCall =
    | Evaluated(command: string)               // evalCommandGetLabels(command)
    | Deleted(name: Label)                     // deleteObject(name)
    | VisibilitySet(name: Label, visible: bool) // setVisible(name, visible)

  /**
   * The applet API. The answer to a creation command is any function of the calls made
   * so far and of the command itself, which is as general as the applet's own state.
   */
  class Api {
    var log: seq<HostCall>
    const evaluate: (seq<HostCall>, string) -> EvalResult

    constructor (evaluate: (seq<HostCall>, string) -> EvalResult)
      ensures log == [] && this.evaluate == evaluate
    {
      log := [];
      this.evaluate := evaluate;
    }

    method EvalCommandGetLabels(command: string) returns (r: EvalResult)
      modifies this
      ensures r == evaluate(old(log), command)
      ensures log == old(log) + [Evaluated(command)]
    {
      r := evaluate(log, command);
      log := log + [Evaluated(command)];
    }

    method DeleteObject(name: Label)
      modifies this
      ensures log == old(log) + [Deleted(name)]
    {
      log := log + [Deleted(name)];
    }

    method SetVisible(name: Label, visible: bool)
      modifies this
      ensures log == old(log) + [VisibilitySet(name, visible)]
    {
      log := log + [VisibilitySet(name, visible)];
    }
  }
}
