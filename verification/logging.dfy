/** The event logger (utils/logger.py) as an abstract collaborator: it
    records the calls made to it. The log files, their handlers and the
    message formatting are not part of this model. */
module Logging {
  import opened Wrappers
  import opened Findings

  /** One `log_command(command, target)` call. */
  datatype CommandEntry = CommandEntry(command: string, target: Option<string>)

  /** One `log_finding(finding_type, target, details)` call, with the
      arguments exactly as the caller passed them. */
  datatype FindingEntry = FindingEntry(findingType: string, target: Systems, details: string)

  class EventLog {
    var commands: seq<CommandEntry>
    var findings: seq<FindingEntry>

    constructor ()
      ensures commands == [] && findings == []
    {
      commands := [];
      findings := [];
    }

    method LogCommand(command: string, target: Option<string>)
      modifies this`commands
      ensures commands == old(commands) + [CommandEntry(command, target)]
    {
      commands := commands + [CommandEntry(command, target)];
    }

    method LogFinding(findingType: string, target: Systems, details: string)
      modifies this`findings
      ensures findings == old(findings) + [FindingEntry(findingType, target, details)]
    {
      findings := findings + [FindingEntry(findingType, target, details)];
    }
  }
}
