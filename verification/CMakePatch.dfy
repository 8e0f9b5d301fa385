/**
 The build-time patcher `inject-hip-cmake.py`: it guards two compiler flags in
 the top-level CMakeLists.txt and splices a backend into the one under src.
 */
module CMakePatch {
  import opened Prelude
  import opened Texts

  // ---- The texts the patcher works with, the long ones in pieces ----

  const MARK := "BTX_ENABLE_HIP_EXPERIMENTAL"
  const ADD_LIB_ANCHOR := "add_library(btx_matmul_backend " + "STATIC EXCLUDE_FROM_ALL"

  const OPTION_TITLE := [
    "\n", "# ---- BTX experimental HIP/ROCm ", "backend (AMD GPUs) — injected by CI --", "--------\n"]

  const OPTION_SWITCH := [
    "option(BTX_ENABLE_HIP_EXPERIMENTAL ", "\"Enable experimental HIP/ROCm backend "]

  const OPTION_HELP := [
    "for AMD GPUs (mutually exclusive with ", "CUDA)\" OFF)\n"]

  const OPTION_CACHE := [
    "set(BTX_HIP_ARCHITECTURES \"\" CACHE ", "STRING \"Semicolon-separated AMD GPU ",
    "archs (e.g. gfx1030;gfx1100;", "gfx1101)\")\n"]

  const OPTION_BOTH := [
    "if(BTX_ENABLE_CUDA_EXPERIMENTAL AND ", "BTX_ENABLE_HIP_EXPERIMENTAL)\n"]

  const OPTION_EXCLUSIVE := [
    "  message(FATAL_ERROR \"BTX_ENABLE_", "CUDA_EXPERIMENTAL and BTX_ENABLE_HIP_",
    "EXPERIMENTAL are mutually ", "exclusive.\")\n"]

  const OPTION_WANTED := [
    "endif()\n", "if(BTX_ENABLE_HIP_EXPERIMENTAL)\n", "  if(BTX_HIP_ARCHITECTURES STREQUAL ", "\"\")\n"]

  const OPTION_ARCHITECTURES := [
    "    message(FATAL_ERROR \"BTX_ENABLE_", "HIP_EXPERIMENTAL=ON requires BTX_HIP_",
    "ARCHITECTURES (e.g. gfx1030;", "gfx1100).\")\n"]

  const OPTION_PLATFORM := [
    "  endif()\n", "  if(NOT DEFINED CMAKE_HIP_COMPILER ", "AND NOT DEFINED CMAKE_HIP_PLATFORM)\n",
    "    set(CMAKE_HIP_PLATFORM amd)\n", "  endif()\n"]

  const OPTION_CHECK := [
    "  include(CheckLanguage)\n", "  check_language(HIP)\n", "  if(NOT CMAKE_HIP_COMPILER)\n"]

  const OPTION_COMPILER := [
    "    message(FATAL_ERROR \"BTX_ENABLE_", "HIP_EXPERIMENTAL=ON requires hipcc (", "ROCm 6.2+).\")\n",
    "  endif()\n"]

  const OPTION_ENABLE := [
    "  enable_language(HIP)\n", "  find_package(hip REQUIRED)\n"]

  const OPTION_END := [
    "endif()\n", "# ------------------------------------", "--------------------------------------", "--\n"]

  const OPTION_TOP := Concat(OPTION_TITLE) + Concat(OPTION_SWITCH) + Concat(OPTION_HELP) + Concat(OPTION_CACHE)
    + Concat(OPTION_BOTH) + Concat(OPTION_EXCLUSIVE) + Concat(OPTION_WANTED)

  const OPTION_BOTTOM := Concat(OPTION_ARCHITECTURES) + Concat(OPTION_PLATFORM) + Concat(OPTION_CHECK)
    + Concat(OPTION_COMPILER) + Concat(OPTION_ENABLE) + Concat(OPTION_END)

  const HIP_OPTION_BLOCK := OPTION_TOP + OPTION_BOTTOM

  const STUB_PIECES := [
    "else()\n",
    "  target_sources(btx_matmul_backend ", "PRIVATE\n",
    "    cuda/matmul_accel_stub.cpp\n",
    "    cuda/oracle_accel_stub.cpp\n",
    "  )\n",
    "endif()"]

  const CUDA_STUB_BLOCK := Concat(STUB_PIECES)

  /** The texts of the source patch: the marker that says it has been made, the
      anchor, the block put in front of it, the stub and what replaces it. */
  datatype Wiring = Wiring(mark: string, anchor: string, options: string, stub: string, branch: string)

  /** The script's own texts; `rest` is what follows the head of the new branch. */
  function Script(rest: string): Wiring {
    Wiring(MARK, ADD_LIB_ANCHOR, HIP_OPTION_BLOCK + "\n", CUDA_STUB_BLOCK, "elseif(" + MARK + ")" + rest)
  }

  const IDENTIFIERS_FLAG := "try_append_cxx_flags(" + "\"-fno-extended-identifiers\"" + " TARGET core_interface SKIP_LINK)"
  const STACK_REUSE_FLAG := "try_append_cxx_flags(" + "\"-fstack-reuse=none\"" + " TARGET core_interface)"
  const GCC_ONLY_FLAG_LINES := [IDENTIFIERS_FLAG, STACK_REUSE_FLAG]

  const GUARD_HEAD := "if(NOT BTX_ENABLE_HIP_EXPERIMENTAL)"
  const GUARD_TAIL := "endif()"

  // ---- What the patcher does ----

  function Guarded(line: string): string {
    GUARD_HEAD + "\n  " + line + "\n" + GUARD_TAIL
  }

  /** One round of the loop of `_patch_top_cmake`. */
  function Guard(txt: string, line: string): string {
    if !Occurs(txt, line) || Occurs(txt, Guarded(line)) then txt else ReplaceFirst(txt, line, Guarded(line))
  }

  function GuardAll(txt: string, lines: seq<string>): string {
    if lines == [] then txt else Guard(GuardAll(txt, lines[..|lines| - 1]), lines[|lines| - 1])
  }

  datatype Outcome = AlreadyThere | NoAnchor | NoStub | Patched(txt: string)

  /** `_patch_src_cmake`. */
  function PatchSrc(w: Wiring, txt: string): Outcome {
    if Occurs(txt, w.mark) then AlreadyThere
    else if !Occurs(txt, w.anchor) then NoAnchor
    else if !Occurs(txt, w.stub) then NoStub
    else Patched(ReplaceFirst(ReplaceFirst(txt, w.anchor, w.options + w.anchor), w.stub, w.branch))
  }

  // ---- The patcher itself, on a file ----

  class TextFile {
    var text: string
    var writes: nat

    constructor (text: string)
      ensures this.text == text && writes == 0
    {
      this.text := text;
      writes := 0;
    }

    method WriteText(t: string)
      modifies this
      ensures text == t && writes == old(writes) + 1
    {
      text := t;
      writes := writes + 1;
    }
  }

  /** The file is written once if any flag was guarded, and not at all otherwise. */
  method PatchTopCMake(p: TextFile) returns (changed: nat)
    modifies p
    ensures p.text == GuardAll(old(p.text), GCC_ONLY_FLAG_LINES)
    ensures p.writes == old(p.writes) + (if changed > 0 then 1 else 0)
    ensures changed == 0 ==> p.text == old(p.text)
  {
    var txt := p.text;
    changed := 0;
    for k := 0 to |GCC_ONLY_FLAG_LINES|
      invariant txt == GuardAll(p.text, GCC_ONLY_FLAG_LINES[..k])
      invariant changed == 0 ==> txt == p.text
      invariant p.text == old(p.text) && p.writes == old(p.writes)
    {
      var line := GCC_ONLY_FLAG_LINES[k];
      assert GCC_ONLY_FLAG_LINES[..k + 1][..k] == GCC_ONLY_FLAG_LINES[..k];
      if Occurs(txt, line) && !Occurs(txt, Guarded(line)) {
        txt := ReplaceFirst(txt, line, Guarded(line));
        changed := changed + 1;
      }
    }
    assert GCC_ONLY_FLAG_LINES[..|GCC_ONLY_FLAG_LINES|] == GCC_ONLY_FLAG_LINES;
    if changed > 0 {
      p.WriteText(txt);
    }
  }

  /** The result says what happened; the file changes only if it was patched. */
  method PatchSrcCMake(p: TextFile, w: Wiring) returns (outcome: Outcome)
    modifies p
    ensures outcome == PatchSrc(w, old(p.text))
    ensures p.text == (if outcome.Patched? then outcome.txt else old(p.text))
    ensures p.writes == old(p.writes) + (if outcome.Patched? then 1 else 0)
  {
    var txt := p.text;
    if Occurs(txt, w.mark) {
      return AlreadyThere;
    }
    if !Occurs(txt, w.anchor) {
      return NoAnchor;
    }
    if !Occurs(txt, w.stub) {
      return NoStub;
    }
    txt := ReplaceFirst(txt, w.anchor, w.options + w.anchor);
    txt := ReplaceFirst(txt, w.stub, w.branch);
    p.WriteText(txt);
    outcome := Patched(txt);
  }
}
