/** The command lines the two generators build: the Code::Blocks IDE
    invocation of the global generator (GenerateBuildCommand) and the make
    invocation of the extra generator (BuildMakeCommand). Path conversion is
    cmSystemTools::ConvertToOutputPath, passed in as `toOutputPath`. */
module BuildCommands {
  import opened Wrappers
  import opened Strings

  /** The IDE switches that depend on the host: on Windows the IDE is told not
      to check file associations nor use DDE, elsewhere not to use IPC. */
  function PlatformOptions(onWindows: bool): (opts: string)
    ensures onWindows <==> opts == " --no-check-associations --no-dde"
    ensures !onWindows <==> opts == " --no-ipc"
  {
    if onWindows then " --no-check-associations --no-dde" else " --no-ipc"
  }

  /** The IDE switches selecting what to build: `clean` cleans, any other
      non-empty name builds that target, no name or an empty one adds nothing. */
  function TargetOptions(targetName: Option<string>): (opts: string)
    ensures targetName == Some("clean") <==> opts == " --clean"
    ensures opts == "" <==> targetName.None? || targetName.value == ""
    ensures targetName.Some? && targetName.value != "" && targetName.value != "clean" ==>
              opts == " --build --target=" + targetName.value
  {
    match targetName
    case None => ""
    case Some(name) =>
      if name == "clean" then " --clean"
      else if name != "" then " --build --target=" + name
      else ""
  }

  /** Extra command-line options, separated by one space when present. */
  function AdditionalOptions(additionalOptions: Option<string>): (opts: string)
    ensures additionalOptions.None? ==> opts == ""
    ensures additionalOptions.Some? ==> opts == " " + additionalOptions.value
  {
    match additionalOptions
    case None => ""
    case Some(o) => " " + o
  }

  /** The IDE invocation for a known make program: the converted program,
      no splash screen, the host switches, the target switches, the extra
      options, then the project file `<projectName>.cbp`. */
  function IdeCommandLine(makeProgram: string, projectName: string, additionalOptions: Option<string>,
                          targetName: Option<string>, onWindows: bool, toOutputPath: string -> string): (command: string)
    ensures toOutputPath(makeProgram) + " --no-splash-screen" <= command
    ensures EndsWith(command, " " + projectName + ".cbp")
    ensures |command| > 0
  {
    var head := toOutputPath(makeProgram) + " --no-splash-screen";
    var command := head + PlatformOptions(onWindows) + TargetOptions(targetName)
                   + AdditionalOptions(additionalOptions) + " " + projectName + ".cbp";
    IdeFrame(head, PlatformOptions(onWindows), TargetOptions(targetName), AdditionalOptions(additionalOptions), projectName);
    command
  }

  /** The frame of an IDE command line: it starts with its head and ends with
      the project file. */
  lemma IdeFrame(head: string, platform: string, target: string, options: string, projectName: string)
    ensures head <= head + platform + target + options + " " + projectName + ".cbp"
    ensures EndsWith(head + platform + target + options + " " + projectName + ".cbp", " " + projectName + ".cbp")
  {
    FramedBy(head, platform + target + options + " ", projectName, ".cbp");
    assert head + platform + target + options + " " == head + (platform + target + options + " ");
    Framed(head + platform + target + options, "", " " + projectName + ".cbp");
    assert head + platform + target + options + " " + projectName + ".cbp"
        == head + platform + target + options + "" + (" " + projectName + ".cbp");
  }

  /** GenerateBuildCommand of the global generator: the command line that runs
      the Code::Blocks IDE on `<projectName>.cbp`, or "" when no make program
      is known (the error report that accompanies it is not modelled). */
  method GenerateBuildCommand(makeProgram: Option<string>, projectName: string,
                              additionalOptions: Option<string>, targetName: Option<string>,
                              onWindows: bool, toOutputPath: string -> string)
    returns (makeCommand: string)
    ensures makeCommand == "" <==> makeProgram.None? || makeProgram.value == ""
    ensures makeProgram.Some? && makeProgram.value != "" ==>
              makeCommand == IdeCommandLine(makeProgram.value, projectName, additionalOptions,
                                            targetName, onWindows, toOutputPath)
  {
    if makeProgram.None? || |makeProgram.value| == 0 {
      return "";
    }
    makeCommand := toOutputPath(makeProgram.value);
    makeCommand := makeCommand + " --no-splash-screen";
    ghost var stage := makeCommand + PlatformOptions(onWindows);
    if onWindows {
      makeCommand := makeCommand + " --no-check-associations --no-dde";
    } else {
      makeCommand := makeCommand + " --no-ipc";
    }
    assert makeCommand == stage;
    stage := stage + TargetOptions(targetName);
    if targetName.Some? {
      if targetName.value == "clean" {
        makeCommand := makeCommand + " --clean";
      } else if |targetName.value| != 0 {
        ghost var before := makeCommand;
        makeCommand := makeCommand + " --build --target=";
        makeCommand := makeCommand + targetName.value;
        AppendAssociative(before, " --build --target=", targetName.value);
      } else {
        AppendEmpty(makeCommand);
      }
    } else {
      AppendEmpty(makeCommand);
    }
    assert makeCommand == stage;
    stage := stage + AdditionalOptions(additionalOptions);
    if additionalOptions.Some? {
      ghost var before := makeCommand;
      makeCommand := makeCommand + [' '];
      makeCommand := makeCommand + additionalOptions.value;
      AppendAssociative(before, " ", additionalOptions.value);
    } else {
      AppendEmpty(makeCommand);
    }
    assert makeCommand == stage;
    makeCommand := makeCommand + [' '];
    makeCommand := makeCommand + projectName;
    makeCommand := makeCommand + ".cbp";
  }

  const NMakeGeneratorName := "NMake Makefiles"
  const MinGWGeneratorName := "MinGW Makefiles"

  /** The switch naming the makefile, with the opening (XML-escaped) quote of
      its argument: NMake's `/f` (with `/NOLOGO`), `-f` for every other make. */
  function MakefileSwitch(generatorName: string): (switch: string)
    ensures generatorName == NMakeGeneratorName <==> switch == " /NOLOGO /f &quot;"
    ensures generatorName != NMakeGeneratorName <==> switch == " -f &quot;"
  {
    if generatorName == NMakeGeneratorName then " /NOLOGO /f &quot;" else " -f &quot;"
  }

  /** The makefile as written on the command line: converted to an output
      path, except under MinGW where it is used unchanged. */
  function MakefileArgument(generatorName: string, makefile: string, toOutputPath: string -> string): (arg: string)
    ensures generatorName == MinGWGeneratorName ==> arg == makefile
    ensures generatorName != MinGWGeneratorName ==> arg == toOutputPath(makefile)
  {
    if generatorName == MinGWGeneratorName then makefile else toOutputPath(makefile)
  }

  /** BuildMakeCommand of the extra generator: `make`, the makefile switch,
      the quoted makefile, `VERBOSE=1` and the target. The three branches of
      the source share this one shape; the quotes are already XML-escaped. */
  method BuildMakeCommand(make: string, makefile: string, target: string, generatorName: string,
                          toOutputPath: string -> string)
    returns (command: string)
    ensures command == make + MakefileSwitch(generatorName)
                       + MakefileArgument(generatorName, makefile, toOutputPath)
                       + "&quot; " + " VERBOSE=1 " + target
    ensures make <= command && EndsWith(command, " VERBOSE=1 " + target)
  {
    command := make;
    if generatorName == NMakeGeneratorName {
      var makefileName := toOutputPath(makefile);
      command := command + " /NOLOGO /f &quot;";
      command := command + makefileName;
      command := command + "&quot; ";
      command := command + " VERBOSE=1 ";
      command := command + target;
    } else if generatorName == MinGWGeneratorName {
      var makefileName := makefile;
      command := command + " -f &quot;";
      command := command + makefileName;
      command := command + "&quot; ";
      command := command + " VERBOSE=1 ";
      command := command + target;
    } else {
      var makefileName := toOutputPath(makefile);
      command := command + " -f &quot;";
      command := command + makefileName;
      command := command + "&quot; ";
      command := command + " VERBOSE=1 ";
      command := command + target;
    }
    CommandFrame(make, MakefileSwitch(generatorName), MakefileArgument(generatorName, makefile, toOutputPath),
                 "&quot; ", " VERBOSE=1 ", target);
  }

  /** A command assembled from six pieces starts with the first and ends with
      the last two. */
  lemma CommandFrame(a: string, b: string, c: string, d: string, e: string, f: string)
    ensures a <= a + b + c + d + e + f
    ensures EndsWith(a + b + c + d + e + f, e + f)
  {
    FramedBy(a, b + c + d, e, f);
    assert a + b + c + d == a + (b + c + d);
  }
}
