/**
 * The `code` command (cmd/code.go): which path it opens and with which editor
 * command line, and whether the editor gets the terminal.
 */
module CodeCli {

  /** The path to open: the argument, or the current directory without one. */
  function OpenPath(args: seq<string>): (path: string)
    ensures args == [] ==> path == "."
    ensures args != [] ==> path == args[0]
  {
    if |args| > 0 then args[0] else "."
  }

  /** The editor process: its binary and arguments, and whether it gets the terminal's stdin, stdout and stderr. */
  datatype EditorCommand = EditorCommand(binary: string, args: seq<string>, passThrough: bool)

  /** VS Code's arguments: the path, with `--new-window` and then `--wait` put in front of it when asked for. */
  function CodeArgs(absPath: string, newWindow: bool, wait: bool): seq<string> {
    var args := [absPath];
    var args := if newWindow then ["--new-window"] + args else args;
    if wait then ["--wait"] + args else args
  }

  /** The flags come first, `--wait` before `--new-window`, and the path is last. */
  lemma CodeArgsOrder(absPath: string, newWindow: bool, wait: bool)
    ensures CodeArgs(absPath, newWindow, wait)
            == (if wait then ["--wait"] else []) + (if newWindow then ["--new-window"] else []) + [absPath]
    ensures var args := CodeArgs(absPath, newWindow, wait);
      |args| == 1 + (if wait then 1 else 0) + (if newWindow then 1 else 0) && args[|args| - 1] == absPath
  {
  }

  /** Only the terminal editors are handed the terminal. */
  predicate IsTerminalEditor(editor: string) {
    editor == "vim" || editor == "nano" || editor == "emacs"
  }

  /** The command that opens `absPath` in `editor`; an editor it does not know is treated as VS Code. */
  function OpenCommand(editor: string, absPath: string, newWindow: bool, wait: bool): (c: EditorCommand)
    ensures c.passThrough <==> IsTerminalEditor(editor)
  {
    var passThrough := IsTerminalEditor(editor);
    if editor == "vscode" || editor == "code" then EditorCommand("code", CodeArgs(absPath, newWindow, wait), passThrough)
    else if editor == "vim" then EditorCommand("vim", [absPath], passThrough)
    else if editor == "nano" then EditorCommand("nano", [absPath], passThrough)
    else if editor == "emacs" then EditorCommand("emacs", [absPath], passThrough)
    else if editor == "subl" || editor == "sublime" then EditorCommand("subl", [absPath], passThrough)
    else EditorCommand("code", CodeArgs(absPath, newWindow, wait), passThrough)
  }

  /**
   * vim, nano, emacs and Sublime Text get exactly the path, ignoring the window
   * flags; the terminal editors run under their own name with the terminal, and
   * Sublime Text runs as `subl` without it.
   */
  lemma OtherEditorsGetOnlyThePath(editor: string, absPath: string, newWindow: bool, wait: bool)
    requires editor in {"vim", "nano", "emacs", "subl", "sublime"}
    ensures OpenCommand(editor, absPath, newWindow, wait).args == [absPath]
    ensures IsTerminalEditor(editor) ==> OpenCommand(editor, absPath, newWindow, wait) == EditorCommand(editor, [absPath], true)
    ensures !IsTerminalEditor(editor) ==> OpenCommand(editor, absPath, newWindow, wait) == EditorCommand("subl", [absPath], false)
  {
  }

  /** Any editor name that is not one of the known ones opens exactly as `code` does. */
  lemma UnknownEditorIsCode(editor: string, absPath: string, newWindow: bool, wait: bool)
    requires editor !in {"vscode", "code", "vim", "nano", "emacs", "subl", "sublime"}
    ensures OpenCommand(editor, absPath, newWindow, wait) == OpenCommand("code", absPath, newWindow, wait)
    ensures OpenCommand(editor, absPath, newWindow, wait) == EditorCommand("code", CodeArgs(absPath, newWindow, wait), false)
  {
  }
}
