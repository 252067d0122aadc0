# Generals engine core, modelled in Dafny

This project models a set of small, self-contained pieces of the Command &
Conquer Generals engine, and proves what each of them promises:

- **Command line** (`cmdline.dfy`, `WinMain.cpp`). Three parts:
  - `nextParam`, the tokeniser with a static cursor. It writes NUL bytes into
    the command-line buffer. A token that starts with a separator is delimited
    by that same character, so a quoted argument keeps its spaces.
  - The `WinMain` loop that fills `argv[1..19]` and notices `-win`.
  - The scan that cuts the module file name at its last backslash. The result
    is the working directory.
- **`_lrotl`** (`intrinsics.dfy`, `intrin_compat.h`). The portable 32-bit
  rotate-left, in two forms:
  - the compiler-builtin form;
  - the two-shift fallback.

  Both are proved equal to an independent reference: repeated one-place
  rotation.
- **Subsystem registry** (`subsystems.dfy`, `SubsystemInterface.cpp`).
  - Subsystems are brought up in order, and torn down and reset in reverse
    order.
  - Every call the list makes into a subsystem or into the INI loader is
    recorded in a trace.
- **Jet AI flags** (`jet_flags.dfy`, `JetAIUpdate.h`). The nine state bits in
  `m_flags`, their getter and setter, and the `friend_` accessors. Generic
  facts about setting and clearing a mask sit in module `BitMasks`.
- **Firewall behaviour** (`firewall.dfy`, `FirewallHelper.h`). The behaviour
  bit values, `isNAT`, `isNetgear` and the 16-bit raw behaviour.
- **Game logic state** (`game_logic.dfy`, `GameLogic.h`). Covers:
  - the game-mode enum and its predicates;
  - the clamped rank-level limit;
  - the object-ID counter;
  - the lookup of an object by ID.
- **Direct3D capabilities** (`dx8caps.dfy`, `dx8caps.cpp`). `Compute_Caps`
  runs in a fixed order:
  1. It fills the texture-format table from a device oracle.
  2. It assumes DXTC and bump mapping.
  3. Last, the NVidia hack runs. It switches DXT1 and N-patches off and
     rederives DXTC.
- **Special abilities** (`special_ability.dfy`, `SpecialAbilityUpdate.h`).
  The preparation countdown, the persistent-ability rule, the sleep decision
  and the module-data defaults.

`wrappers.dfy` holds the `Option` type used for C's NULL pointers.

Pure code is written as functions and lemmas. Code that updates state is
written as a `class`:

- `ParamTokenizer`
- `SubsystemInterfaceList`
- `JetAIFlags`
- `GameLogic`
- `DX8Caps`
- `SpecialAbilityUpdate`

Each class has methods whose postconditions give the new state in terms of a
specification function. Loops keep their invariants.

External calls are abstracted as follows:

- The Direct3D `CheckDeviceFormat` call is a function parameter:
  `accepts(display, format)`.
- `strtrim` is a function parameter: `trim`.
- The INI loader and the virtual calls into subsystems are events in a trace.

## Model

| member | source | states |
|---|---|---|
| Intrinsics.RotateLeft | Dependencies/Utility/Utility/intrin_compat.h:29-30 | The builtin rotation: rotate by the shift modulo 32, the identity when that is 0. See RotateLeftIsRepeatedRotation, which proves it equal to repeated one-place rotation, and RotateLeftMovesBit. |
| Intrinsics.RotateLeftFallback | Dependencies/Utility/Utility/intrin_compat.h:31-33 | For every shift whose low five bits are not all zero, the two-shift fallback is `shift & 31` one-place rotations. So it returns the same value as the builtin rotation. |
| Intrinsics.RotateLeftIsRepeatedRotation | Dependencies/Utility/Utility/intrin_compat.h:29-30 | Rotating by k (k ≤ 32) is k one-place rotations, where bit 31 re-enters at bit 0. |
| Intrinsics.RotateLeftUsesLowBits | Dependencies/Utility/Utility/intrin_compat.h:32 | Only the shift modulo 32 matters: shifting by s, by s & 31 and by s + 32 gives the same result. |
| Intrinsics.RotateLeftMovesBit | Dependencies/Utility/Utility/intrin_compat.h:27-35 | Bit i of the input ends up at bit (i + shift) mod 32 of the result. |
| Intrinsics.RotateLeftCompose | Dependencies/Utility/Utility/intrin_compat.h:27-35 | Rotating by a, then by b, is rotating by (a + b) mod 32. |
| Intrinsics.RotateLeftInvertible | Dependencies/Utility/Utility/intrin_compat.h:27-35 | Rotating by 32 − s undoes a rotation by s. |
| Intrinsics.RotateLeftPreservesPopCount | Dependencies/Utility/Utility/intrin_compat.h:27-35 | A rotation keeps the number of set bits. |
| Intrinsics.FallbackRightShiftCount | Dependencies/Utility/Utility/intrin_compat.h:32-33 | The fallback's right-shift count lies in 1..32. It is 32, the operand width, exactly when the masked shift is 0. |
| Intrinsics.FallbackShiftsByWidth | Dependencies/Utility/Utility/intrin_compat.h:32-33 | The shifts 0, 32 and −32 drive the fallback into a right shift by 32. |
| CommandLine.StrEnd | Generals/Code/Main/WinMain.cpp:447 | Returns the first NUL at or after a position: every character before it is non-NUL. |
| CommandLine.FindFirst | Generals/Code/Main/WinMain.cpp:426 | `strpbrk`: returns the first position before the string's NUL that holds one of the characters, and nothing before it does. Returns NULL when there is none. |
| CommandLine.SkipRun | Generals/Code/Main/WinMain.cpp:431 | The run of one character starting at a position: every character in it is that one, and the character after it is not. |
| CommandLine.NextParamScan | Generals/Code/Main/WinMain.cpp:421-457 | One tokenising step. The token lies between the cursor and the string's NUL. A terminator lies strictly after the token start. The next cursor is the terminator plus one. |
| CommandLine.NextParamScanExplicit | Generals/Code/Main/WinMain.cpp:421-457 | The step in closed form. It gives the token start: the cursor, or the end of the leading-separator run. It gives the terminator: `strpbrk` after the start, searching for the leading separator or for all separators. It gives the token, which is NULL when empty. It gives the next cursor, which is NULL at end of string. |
| CommandLine.PlainToken | Generals/Code/Main/WinMain.cpp:426-439 | A token that does not start with a separator starts at the cursor. It ends just before the first separator, and contains none. |
| CommandLine.SeparatorLedToken | Generals/Code/Main/WinMain.cpp:428-437 | A token that starts with a separator has the whole run of that character skipped. It ends only at the next occurrence of that same character, and the token text contains none of it. |
| CommandLine.TerminatorHandling | Generals/Code/Main/WinMain.cpp:441-453 | If a terminator is found, it is overwritten with NUL. The cursor becomes the next character, or NULL if that character is the end of the string. Without a terminator the buffer is unchanged and the cursor is NULL. |
| CommandLine.EmptyTokenIsNull | Generals/Code/Main/WinMain.cpp:455-456 | The result is NULL exactly when the token text would be empty; a returned token is never empty. |
| CommandLine.QuotedTokenKeepsSpaces | Generals/Code/Main/WinMain.cpp:428-437 | For `"a b" c`, the first token is `a b` (with its space) and the next cursor is at `c`'s separator. |
| CommandLine.SpaceLedTokenStopsAtSpace | Generals/Code/Main/WinMain.cpp:428-437 | For ` x"y z`, the first token is `x"y`: a space-led token stops at a space, not at a quote. |
| CommandLine.StepKeepsTerminated | Generals/Code/Main/WinMain.cpp:441-449 | A step keeps the buffer length and its NUL termination, and leaves the next cursor inside the buffer. |
| CommandLine.ParamTokenizer.constructor | Generals/Code/Main/WinMain.cpp:411 | The static cursor starts as NULL. |
| CommandLine.ParamTokenizer.NextParam | Generals/Code/Main/WinMain.cpp:409-460 | Three cases. A non-NULL `newSource` restarts at that buffer's start. NULL with a NULL cursor returns NULL and changes nothing. Otherwise exactly one `NextParamScan` step is applied to the buffer and the cursor. |
| CommandLine.ScanStep | Generals/Code/Main/WinMain.cpp:421-459 | The array code performs exactly the step `NextParamScan` specifies. |
| CommandLine.SkipSeparators | Generals/Code/Main/WinMain.cpp:428-432 | The skip loop stops at the end of the run of the leading separator. |
| CommandLine.Tokens | Generals/Code/Main/WinMain.cpp:514-520 | The tokens successive calls produce from a cursor: each is non-empty and free of NUL. |
| CommandLine.TokensAfterStep | Generals/Code/Main/WinMain.cpp:514-520 | The token list is the token this step returns, followed by the tokens of the rewritten buffer from the new cursor. |
| CommandLine.CollectArguments | Generals/Code/Main/WinMain.cpp:509-521 | argc is 1 plus the token count, capped at 19. argv[0] is NULL. argv[i] is the trimmed i-th token. The windowed flag is set iff one of the stored tokens is `-win`, ignoring case. The command line and the static cursor end as `argc` calls of `nextParam` leave them, including the extra call after argv is full. When fewer than 19 tokens were stored, the cursor ends NULL. |
| CommandLine.StoreArguments | Generals/Code/Main/WinMain.cpp:515-521 | The loop stores the tokens in order until 19 are stored or none remain, keeping the windowed flag in step. The buffer and the cursor end as `argc - 1` further calls of `nextParam` leave them. |
| CommandLine.Call | Generals/Code/Main/WinMain.cpp:416-457 | One call with a NULL argument: a NULL cursor changes nothing. Otherwise one step is taken. The buffer stays terminated and the same length, and the new cursor lies inside it. |
| CommandLine.AfterCalls | Generals/Code/Main/WinMain.cpp:514-520 | The buffer and cursor after n calls. The buffer stays terminated and the same length. From a NULL cursor, nothing changes. |
| CommandLine.NullTokenEndsScan | Generals/Code/Main/WinMain.cpp:441-456 | A call that returns NULL also leaves the cursor NULL. |
| CommandLine.CallsExhaustTokens | Generals/Code/Main/WinMain.cpp:514-520 | One call more than there are tokens leaves the cursor NULL: the command line is used up. |
| CommandLine.ArgvLoopState | Generals/Code/Main/WinMain.cpp:514-520 | The first call followed by the loop's k calls are k + 1 calls from the start of the command line. After one call per token and one more, the cursor is NULL. |
| CommandLine.StoreArgument | Generals/Code/Main/WinMain.cpp:516-519 | One loop body stores the trimmed token at argv[argc] and sets the windowed flag if the token is `-win`. |
| CommandLine.FirstArgument | Generals/Code/Main/WinMain.cpp:514 | The first call, on the command line, yields the first token; the rest of the token list remains pending. The buffer and cursor are one call from the start of the command line. |
| CommandLine.NextArgument | Generals/Code/Main/WinMain.cpp:520 | A call with NULL yields the next pending token. The buffer and cursor advance by exactly one call. |
| CommandLine.AnyWindowedPrefix | Generals/Code/Main/WinMain.cpp:516-519 | The flag the loop accumulates over the first n tokens holds iff one of those tokens is `-win`. |
| CommandLine.EqualsIgnoreCase | Generals/Code/Main/WinMain.cpp:518 | `stricmp(a, b) == 0`: equal length, and equal characters after ASCII case folding. See WindowedFlagIgnoresCase. |
| CommandLine.IsWindowedFlag | Generals/Code/Main/WinMain.cpp:518 | The token is `-win` in any case. See WindowedFlagIgnoresCase and AnyWindowedPrefix. |
| CommandLine.WindowedFlagIgnoresCase | Generals/Code/Main/WinMain.cpp:518 | `-WiN` is the flag; `-wind` and `win` are not. |
| CommandLine.LastBackslash | Generals/Code/Main/WinMain.cpp:494-501 | Returns the largest index in 1..hi holding a backslash, with none after it; index 0 is never examined. |
| CommandLine.TrimModulePath | Generals/Code/Main/WinMain.cpp:493-502 | The backward scan writes the trimmed path into the buffer. |
| CommandLine.TrimmedPathIsDirectory | Generals/Code/Main/WinMain.cpp:494-502 | After trimming, the string is the text before the last backslash, with no backslash after that point. A path with no backslash past index 0 is unchanged. |
| CommandLine.LeadingBackslashKept | Generals/Code/Main/WinMain.cpp:494 | The loop stops before index 0, so `\ab` is not cut. |
| Subsystems.Calls | Generals/Code/GameEngine/Source/Common/System/SubsystemInterface.cpp:101-104 | One call per subsystem, in list order. |
| Subsystems.Reverse | Generals/Code/GameEngine/Source/Common/System/SubsystemInterface.cpp:111-114 | Reverse-iterator order: element i is element n−1−i of the list. |
| Subsystems.ResetMirrorsPostProcess | Generals/Code/GameEngine/Source/Common/System/SubsystemInterface.cpp:99-115 | The i-th reset is of the subsystem whose post-load call is i-th from the end. |
| Subsystems.ShutdownDeletesEachOnce | Generals/Code/GameEngine/Source/Common/System/SubsystemInterface.cpp:118-127 | A shutdown deletes each subsystem as many times as it is enrolled. A subsystem that is not enrolled is never deleted. |
| Subsystems.SubsystemInterfaceList.ShutdownThenDestroy | Generals/Code/GameEngine/Source/Common/System/SubsystemInterface.cpp:63-67 | An explicit `shutdownAll` followed by the destructor. The destructor's emptiness assertion holds. The earlier trace is kept, and only deletions are added. Each subsystem is deleted exactly as often as it was enrolled, so the destructor's second `shutdownAll` deletes nothing. |
| Subsystems.IniLoads | Generals/Code/GameEngine/Source/Common/System/SubsystemInterface.cpp:87-93 | One load per path given, path1 first. The directory load comes last, exactly when a directory is given. |
| Subsystems.SubsystemInterfaceList.constructor | Generals/Code/GameEngine/Source/Common/System/SubsystemInterface.cpp:58-60 | The list starts empty. |
| Subsystems.SubsystemInterfaceList.AddSubsystem | Generals/Code/GameEngine/Source/Common/System/SubsystemInterface.cpp:70-75 | Constructing a subsystem registers nothing: the list and the trace are unchanged. |
| Subsystems.SubsystemInterfaceList.RemoveSubsystem | Generals/Code/GameEngine/Source/Common/System/SubsystemInterface.cpp:77-80 | Destroying a subsystem changes nothing in the list. |
| Subsystems.SubsystemInterfaceList.InitSubsystem | Generals/Code/GameEngine/Source/Common/System/SubsystemInterface.cpp:82-96 | The subsystem is named, then initialised, then its INI files are loaded. Then it is appended to the list. |
| Subsystems.SubsystemInterfaceList.PostProcessLoadAll | Generals/Code/GameEngine/Source/Common/System/SubsystemInterface.cpp:99-105 | `postProcessLoad` runs on every subsystem, first enrolled first; the list is unchanged. |
| Subsystems.SubsystemInterfaceList.ResetAll | Generals/Code/GameEngine/Source/Common/System/SubsystemInterface.cpp:108-115 | `reset` runs on every subsystem, last enrolled first; the list is unchanged. |
| Subsystems.SubsystemInterfaceList.ShutdownAll | Generals/Code/GameEngine/Source/Common/System/SubsystemInterface.cpp:118-127 | Every subsystem is deleted, last enrolled first, and then the list is empty. |
| Subsystems.SubsystemInterfaceList.Destroy | Generals/Code/GameEngine/Source/Common/System/SubsystemInterface.cpp:63-67 | Reports whether the list was already empty (the debug assertion), then shuts everything down. |
| Subsystems.SubsystemInterfaceList.VisitBackwards | Generals/Code/GameEngine/Source/Common/System/SubsystemInterface.cpp:111-114 | The reverse-iterator loop calls the hook once per subsystem, in reverse order. |
| BitMasks.SetBitsOther | Generals/Code/GameEngine/Include/GameLogic/Module/JetAIUpdate.h:176 | Setting or clearing a mask leaves every bit outside it unchanged. |
| BitMasks.SetBitsSelf | Generals/Code/GameEngine/Include/GameLogic/Module/JetAIUpdate.h:176 | After setting, the mask's bits are all set; after clearing, none of them are. |
| BitMasks.SetBitsTwice | Generals/Code/GameEngine/Include/GameLogic/Module/JetAIUpdate.h:176 | Setting the same mask twice keeps only the last value. |
| BitMasks.SetBitsCommute | Generals/Code/GameEngine/Include/GameLogic/Module/JetAIUpdate.h:176 | For disjoint masks, the order of two updates does not matter. |
| JetFlags.BitNumber | Generals/Code/GameEngine/Include/GameLogic/Module/JetAIUpdate.h:146-157 | Each flag's enum value is below 9. |
| JetFlags.MaskIsShift | Generals/Code/GameEngine/Include/GameLogic/Module/JetAIUpdate.h:175-176 | A flag's mask is `1 << f`. |
| JetFlags.MasksDisjoint | Generals/Code/GameEngine/Include/GameLogic/Module/JetAIUpdate.h:146-157 | Each mask is a single bit inside the low nine bits, and distinct flags have disjoint masks. |
| JetFlags.Test | Generals/Code/GameEngine/Include/GameLogic/Module/JetAIUpdate.h:175 | `getFlag` on a bit pattern: the flag's bit `1 << f` is set. See MaskIsShift and SetThenGet. |
| JetFlags.Set | Generals/Code/GameEngine/Include/GameLogic/Module/JetAIUpdate.h:176 | `setFlag` on a bit pattern: `|= 1 << f` to set, `&= ~(1 << f)` to clear. See SetThenGet, SetKeepsOtherFlags, SetKeepsOtherBits, SetTwice and SetCommutes. |
| JetFlags.TakeoffOrLanding | Generals/Code/GameEngine/Include/GameLogic/Module/JetAIUpdate.h:124-127 | `friend_isTakeoffOrLandingInProgress` on a bit pattern: the takeoff or the landing flag is set. See TakeoffOrLandingOnlyFromItsFlags. |
| JetFlags.SetThenGet | Generals/Code/GameEngine/Include/GameLogic/Module/JetAIUpdate.h:175-176 | After `setFlag(f, v)`, `getFlag(f)` is v. |
| JetFlags.SetKeepsOtherFlags | Generals/Code/GameEngine/Include/GameLogic/Module/JetAIUpdate.h:175-176 | `setFlag(f, v)` leaves every other flag as it was. |
| JetFlags.SetKeepsOtherBits | Generals/Code/GameEngine/Include/GameLogic/Module/JetAIUpdate.h:176 | `setFlag` leaves every bit above the nine flags as it was. |
| JetFlags.SetUnchanged | Generals/Code/GameEngine/Include/GameLogic/Module/JetAIUpdate.h:175-176 | Writing back a flag's current value changes nothing. |
| JetFlags.SetTwice | Generals/Code/GameEngine/Include/GameLogic/Module/JetAIUpdate.h:176 | Setting a flag twice is setting it once, with the last value. |
| JetFlags.SetCommutes | Generals/Code/GameEngine/Include/GameLogic/Module/JetAIUpdate.h:176 | Writes to two different flags commute. |
| JetFlags.TakeoffOrLandingOnlyFromItsFlags | Generals/Code/GameEngine/Include/GameLogic/Module/JetAIUpdate.h:124-127 | The takeoff-or-landing test is unaffected by writes to other flags. It is false once both of its flags are cleared, and becomes true when either of them is set. |
| JetFlags.JetAIFlags.constructor | Generals/Code/GameEngine/Include/GameLogic/Module/JetAIUpdate.h:168 | Builds a flag word holding any 32-bit pattern as `m_flags`. The engine's constructor is not part of this model (see Left out). |
| JetFlags.JetAIFlags.GetFlag | Generals/Code/GameEngine/Include/GameLogic/Module/JetAIUpdate.h:175 | `getFlag(f)` is `Test` on `m_flags`. See JetAIFlags.SetFlag, which ensures `getFlag(f)` returns the value written. |
| JetFlags.JetAIFlags.IsTakeoffOrLandingInProgress | Generals/Code/GameEngine/Include/GameLogic/Module/JetAIUpdate.h:124-127 | `TakeoffOrLanding` on `m_flags`. See TakeoffOrLandingOnlyFromItsFlags. |
| JetFlags.JetAIFlags.SetFlag | Generals/Code/GameEngine/Include/GameLogic/Module/JetAIUpdate.h:176 | `m_flags` becomes `Set(old, f, v)`, and `getFlag(f)` then returns v. |
| JetFlags.JetAIFlags.SetTakeoffInProgress | Generals/Code/GameEngine/Include/GameLogic/Module/JetAIUpdate.h:116 | Writes `TAKEOFF_IN_PROGRESS` only. |
| JetFlags.JetAIFlags.SetLandingInProgress | Generals/Code/GameEngine/Include/GameLogic/Module/JetAIUpdate.h:117 | Writes `LANDING_IN_PROGRESS` only. |
| JetFlags.JetAIFlags.SetTaxiInProgress | Generals/Code/GameEngine/Include/GameLogic/Module/JetAIUpdate.h:118 | Writes `TAXI_IN_PROGRESS` only. |
| JetFlags.JetAIFlags.SetUseSpecialReturnLoco | Generals/Code/GameEngine/Include/GameLogic/Module/JetAIUpdate.h:119 | Writes `USE_SPECIAL_RETURN_LOCO` only. |
| JetFlags.JetAIFlags.SetAllowCircling | Generals/Code/GameEngine/Include/GameLogic/Module/JetAIUpdate.h:120 | Writes `ALLOW_CIRCLING` only. |
| Firewall.IsNAT | Generals/Code/GameEngine/Include/GameNetwork/FirewallHelper.h:224-229 | `isNAT(behavior)`. See NATExactly: it holds iff the value is non-zero and the SIMPLE bit is clear. |
| Firewall.IsNetgear | Generals/Code/GameEngine/Include/GameNetwork/FirewallHelper.h:231-236 | `isNetgear(behavior)`: the NETGEAR_BUG bit is set. See NetgearAndNAT. |
| Firewall.FirewallHelper.IsNATNow | Generals/Code/GameEngine/Include/GameNetwork/FirewallHelper.h:217-222 | The member `isNAT()` is the parameter overload applied to `m_behavior`. See NATExactly. |
| Firewall.FirewallHelper.IsNetgearNow | Generals/Code/GameEngine/Include/GameNetwork/FirewallHelper.h:238-243 | The member `isNetgear()` is the parameter overload applied to `m_behavior`. See NetgearAndNAT. |
| Firewall.FirewallHelper.GetRawFirewallBehavior | Generals/Code/GameEngine/Include/GameNetwork/FirewallHelper.h:181 | `RawBehavior` of `m_behavior`: its low 16 bits, bit by bit. See RawKeepsBehaviors. |
| Firewall.RawBehavior | Generals/Code/GameEngine/Include/GameNetwork/FirewallHelper.h:181 | The `UnsignedShort` conversion keeps the value modulo 2^16: for each of the 16 bits of the result, bit i is bit i of the behaviour. |
| Firewall.BehaviorBitsAreFlags | Generals/Code/GameEngine/Include/GameNetwork/FirewallHelper.h:123-174 | The seven behaviours are the single bits 1, 2, 4, …, 64, in declaration order, all below `FIREWALL_MAX` (128). `FIREWALL_MIN` and `UNKNOWN` are both 0. |
| Firewall.SimpleIsNeverNAT | Generals/Code/GameEngine/Include/GameNetwork/FirewallHelper.h:224-229 | `isNAT` is false for UNKNOWN, and for any value with the SIMPLE bit set, whatever else is set. |
| Firewall.NATExactly | Generals/Code/GameEngine/Include/GameNetwork/FirewallHelper.h:217-229 | `isNAT` holds iff the value is non-zero and bit 0 is clear. In particular each non-simple behaviour on its own is NAT. |
| Firewall.NetgearAndNAT | Generals/Code/GameEngine/Include/GameNetwork/FirewallHelper.h:224-243 | A Netgear result without SIMPLE is always NAT. `isNetgear` ignores SIMPLE, so SIMPLE\|NETGEAR_BUG is Netgear but not NAT. |
| Firewall.RawKeepsBehaviors | Generals/Code/GameEngine/Include/GameNetwork/FirewallHelper.h:217-243 | Every combination of the named bits survives the 16-bit cast unchanged, and both queries give the same answer on the raw value. |
| Firewall.RawDropsHighBits | Generals/Code/GameEngine/Include/GameNetwork/FirewallHelper.h:181 | Bits from 16 up are dropped by the cast. |
| GameLogicState.ClampedRankLimit | Generals/Code/GameEngine/Include/GameLogic/GameLogic.h:213-217 | The stored limit is at least 1 and at least the request, and is either the request or 1. |
| GameLogicState.RankLimitKeepsValidRequests | Generals/Code/GameEngine/Include/GameLogic/GameLogic.h:213-217 | A request is stored unchanged iff it is at least 1, and clamping twice is clamping once. |
| GameLogicState.GameLogic.SetRankLevelLimit | Generals/Code/GameEngine/Include/GameLogic/GameLogic.h:212-217 | `getRankLevelLimit` then returns the clamped request; the other state is unchanged. |
| GameLogicState.GameLogic.SetGameMode | Generals/Code/GameEngine/Include/GameLogic/GameLogic.h:375-376 | `getGameMode` then returns the mode set; the other state is unchanged. |
| GameLogicState.GameLogic.SetObjectIdCounter | Generals/Code/GameEngine/Include/GameLogic/GameLogic.h:136-137 | `getObjectIDCounter` then returns the value set; the other state is unchanged. |
| GameLogicState.GameLogic.FindObjectById | Generals/Code/GameEngine/Include/GameLogic/GameLogic.h:386-396 | `INVALID_ID` finds NULL. Any other ID finds its table entry, or NULL when there is none. |
| GameLogicState.InvalidIdNeverFound | Generals/Code/GameEngine/Include/GameLogic/GameLogic.h:388-389 | An object stored under `INVALID_ID` is still never found. |
| GameLogicState.GameLogic.IsInGame | Generals/Code/GameEngine/Include/GameLogic/GameLogic.h:374 | The mode is not `GAME_NONE`. See MultiplayerIsLanOrInternet. |
| GameLogicState.GameLogic.IsInLanGame | Generals/Code/GameEngine/Include/GameLogic/GameLogic.h:377 | The mode is `GAME_LAN`. See ModePredicatesExclusive. |
| GameLogicState.GameLogic.IsInSkirmishGame | Generals/Code/GameEngine/Include/GameLogic/GameLogic.h:378 | The mode is `GAME_SKIRMISH`. See ModePredicatesExclusive. |
| GameLogicState.GameLogic.IsInMultiplayerGame | Generals/Code/GameEngine/Include/GameLogic/GameLogic.h:379 | The mode is `GAME_LAN` or `GAME_INTERNET`. See MultiplayerIsLanOrInternet. |
| GameLogicState.GameLogic.IsInReplayGame | Generals/Code/GameEngine/Include/GameLogic/GameLogic.h:380 | The mode is `GAME_REPLAY`. See ModePredicatesExclusive. |
| GameLogicState.GameLogic.IsInInternetGame | Generals/Code/GameEngine/Include/GameLogic/GameLogic.h:381 | The mode is `GAME_INTERNET`. See ModePredicatesExclusive. |
| GameLogicState.GameLogic.IsInShellGame | Generals/Code/GameEngine/Include/GameLogic/GameLogic.h:382 | The mode is `GAME_SHELL`. See ModePredicatesExclusive. |
| GameLogicState.GameLogic.GetGameMode | Generals/Code/GameEngine/Include/GameLogic/GameLogic.h:376 | Returns `m_gameMode`. See GameLogic.SetGameMode, after which it returns the mode set. |
| GameLogicState.GameLogic.GetRankLevelLimit | Generals/Code/GameEngine/Include/GameLogic/GameLogic.h:212 | Returns `m_rankLevelLimit`. See GameLogic.SetRankLevelLimit, after which it returns the clamped request. |
| GameLogicState.GameLogic.GetObjectIdCounter | Generals/Code/GameEngine/Include/GameLogic/GameLogic.h:137 | Returns `m_nextObjID`. See GameLogic.SetObjectIdCounter, after which it returns the value set. |
| GameLogicState.ModePredicatesExclusive | Generals/Code/GameEngine/Include/GameLogic/GameLogic.h:377-382 | At most one of the Lan, Skirmish, Replay, Internet and Shell predicates holds. |
| GameLogicState.MultiplayerIsLanOrInternet | Generals/Code/GameEngine/Include/GameLogic/GameLogic.h:374-382 | Multiplayer means LAN or Internet. Each named mode is "in game", and the game is not in game iff the mode is `GAME_NONE`. |
| GameLogicState.ModeChangeKeepsLookups | Generals/Code/GameEngine/Include/GameLogic/GameLogic.h:386-396 | Setting the mode, the limit and the counter leaves every object lookup as it was. |
| DX8Capabilities.DefineVendor | Generals/Code/Libraries/Source/WWVegas/WW3D2/dx8caps.cpp:71-74 | Every vendor id is reported as `VENDOR_UNKNOWN`. |
| DX8Capabilities.GetDevice | Generals/Code/Libraries/Source/WWVegas/WW3D2/dx8caps.cpp:210-245 | Every `Get_*_Device` reports its family's unknown device (`DeviceUnknown`), whatever the id. |
| DX8Capabilities.IdentificationIsStubbed | Generals/Code/Libraries/Source/WWVegas/WW3D2/dx8caps.cpp:210-245 | Even the NVidia and ATI vendor ids are not recognised, and no device id is. |
| DX8Capabilities.FormatTable | Generals/Code/Libraries/Source/WWVegas/WW3D2/dx8caps.cpp:349-373 | With an unknown display format, every entry is false. Otherwise the unknown texture format is false and every other entry is the device's answer. |
| DX8Capabilities.DX8Caps.CheckTextureFormatSupport | Generals/Code/Libraries/Source/WWVegas/WW3D2/dx8caps.cpp:349-373 | Both loops fill the whole table with `FormatTable`. |
| DX8Capabilities.DX8Caps.CheckTextureCompressionSupport | Generals/Code/Libraries/Source/WWVegas/WW3D2/dx8caps.cpp:344-347 | Sets DXTC unconditionally, and nothing else. |
| DX8Capabilities.DX8Caps.CheckBumpmapSupport | Generals/Code/Libraries/Source/WWVegas/WW3D2/dx8caps.cpp:332-336 | Sets both bump-map flags unconditionally, and nothing else. |
| DX8Capabilities.DX8Caps.CheckShaderSupport | Generals/Code/Libraries/Source/WWVegas/WW3D2/dx8caps.cpp:449-453 | Copies the vertex and pixel shader versions. |
| DX8Capabilities.DX8Caps.CheckMaximumTextureSupport | Generals/Code/Libraries/Source/WWVegas/WW3D2/dx8caps.cpp:444-447 | Copies the simultaneous-texture count. |
| DX8Capabilities.DX8Caps.VendorSpecificHacks | Generals/Code/Libraries/Source/WWVegas/WW3D2/dx8caps.cpp:462-477 | For vendor 0x10de: N-patches and DXT1 are cleared, and DXTC becomes the OR of DXT1..DXT5. Every other vendor is untouched. |
| DX8Capabilities.DX8Caps.ComputeCaps | Generals/Code/Libraries/Source/WWVegas/WW3D2/dx8caps.cpp:294-324 | The final table and every flag are the hacks applied to what the earlier checks set: the N-patch/dot3/gamma flags, the stage count, then the format, compression, bump-map, shader and texture checks in that order. |
| DX8Capabilities.DX8Caps.constructor | Generals/Code/Libraries/Source/WWVegas/WW3D2/dx8caps.cpp:247-258 | The new object holds exactly what `Compute_Caps` derives. |
| DX8Capabilities.AnyDxtMeansSomeDxtFormat | Generals/Code/Libraries/Source/WWVegas/WW3D2/dx8caps.cpp:467-472 | The OR of the five entries holds iff some format DXT1..DXT5 is supported. |
| DX8Capabilities.NVidiaDxtcIgnoresDxt1 | Generals/Code/Libraries/Source/WWVegas/WW3D2/dx8caps.cpp:466-472 | On NVidia, DXTC ends up meaning "some of DXT2..DXT5 is supported". |
| DX8Capabilities.DerivedDxtcAndNPatches | Generals/Code/Libraries/Source/WWVegas/WW3D2/dx8caps.cpp:462-477 | Because the hacks run last: a non-NVidia adapter always ends with DXTC and keeps the device's N-patch answer. NVidia never has N-patches, and has DXTC iff the device accepts one of DXT2..DXT5 on a known display format. |
| DX8Capabilities.UnknownDisplaySupportsNothing | Generals/Code/Libraries/Source/WWVegas/WW3D2/dx8caps.cpp:351-355 | With an unknown display format no texture format is supported, even after the hacks, and NVidia reports no DXTC. |
| DX8Capabilities.HacksTouchOnlyDxt1 | Generals/Code/Libraries/Source/WWVegas/WW3D2/dx8caps.cpp:462-477 | The hacks change the table only at DXT1, and applying them twice gives the same table and flags as once. |
| SpecialAbility.DefaultModuleData | Generals/Code/GameEngine/Include/GameLogic/Module/SpecialAbilityUpdate.h:86-114 | Every frame count is 0 and every switch is off except line-of-sight approach. One special object, effect value 1, no XP, skill points −1. |
| SpecialAbility.SpecialAbilityUpdate.ResetPreparation | Generals/Code/GameEngine/Include/GameLogic/Module/SpecialAbilityUpdate.h:230-233 | The countdown restarts at the persistent preparation time. The preparation is then complete iff the ability is not persistent. |
| SpecialAbility.SpecialAbilityUpdate.CalcSleepTime | Generals/Code/GameEngine/Include/GameLogic/Module/SpecialAbilityUpdate.h:244-247 | Returns "no sleep" iff the ability is active or always validates its special objects; otherwise it sleeps forever. |
| SpecialAbility.SpecialAbilityUpdate.IsSpecialAbility | Generals/Code/GameEngine/Include/GameLogic/Module/SpecialAbilityUpdate.h:177 | Always holds. See DefaultAbilityIsTransient. |
| SpecialAbility.SpecialAbilityUpdate.IsSpecialPower | Generals/Code/GameEngine/Include/GameLogic/Module/SpecialAbilityUpdate.h:178 | Never holds. See DefaultAbilityIsTransient. |
| SpecialAbility.SpecialAbilityUpdate.IsActive | Generals/Code/GameEngine/Include/GameLogic/Module/SpecialAbilityUpdate.h:179 | `m_active`. See SpecialAbilityUpdate.CalcSleepTime. |
| SpecialAbility.SpecialAbilityUpdate.IsPreparationComplete | Generals/Code/GameEngine/Include/GameLogic/Module/SpecialAbilityUpdate.h:230 | No preparation frames are left. See CompleteMeansNoFramesLeft and SpecialAbilityUpdate.ResetPreparation. |
| SpecialAbility.SpecialAbilityUpdate.IsPersistentAbility | Generals/Code/GameEngine/Include/GameLogic/Module/SpecialAbilityUpdate.h:232 | The persistent preparation time is positive. See CompleteMeansNoFramesLeft and SpecialAbilityUpdate.ResetPreparation. |
| SpecialAbility.DefaultAbilityIsTransient | Generals/Code/GameEngine/Include/GameLogic/Module/SpecialAbilityUpdate.h:86-114 | With the default data, an ability is not persistent and sleeps iff inactive. It is a special ability and not a special power. |
| SpecialAbility.CompleteMeansNoFramesLeft | Generals/Code/GameEngine/Include/GameLogic/Module/SpecialAbilityUpdate.h:230-232 | The preparation is complete iff no frames are left; the ability is persistent iff its persistent time is non-zero. |

## Left out

- Intrinsics.RotateLeftFallback: requires a shift that is non-zero modulo 32; for a shift that is a multiple of 32 the C++ fallback shifts right by 32, which is undefined (see Findings).
- The other CPU intrinsics of `intrin_compat.h` (`_rdtsc`, the CPUID and bit-scan helpers) are not modelled: they read processor state.
- `strtrim` is the function parameter `trim`. Its in-place write of a NUL over trailing blanks is not modelled, so `argv` holds value copies of the tokens.
- CommandLine.CollectArguments: compares the untrimmed token with `-win`. In the source, `strtrim` has already trimmed the same buffer in place, so a token with trailing blanks would also match there.
- CommandLine.StoreArgument: makes the same untrimmed comparison with `-win` as CollectArguments.
- CommandLine.AnyWindowedPrefix: accumulates that untrimmed comparison, so it inherits the same gap.
- `stricmp` is modelled as ASCII case-folding equality; locale-dependent case folding is not modelled.
- The `-DX` stack-dump branch after the argv loop, and the rest of `WinMain` after the argv loop, are not modelled.
- `GetModuleFileName` and `SetCurrentDirectory` are I/O. The trim loop gets the file name as a NUL-terminated buffer.
- CommandLine.ParamTokenizer.NextParam: a non-NULL `newSource` is taken to point to the start of a buffer, as in both calls WinMain makes; pointers into the middle of a buffer are not modelled.
- The INI loader, `ini.load` and `ini.loadDirectory`, with its `Xfer` argument, is recorded as trace events; parsing is not modelled.
- The subsystems' own `init`, `postProcessLoad`, `reset` and destructor bodies are trace events.
- `m_allSubsystems` (only under `DUMP_PERF_STATS`) is not modelled.
- JetFlags.JetAIFlags.constructor: the engine's `JetAIUpdate` constructor is in JetAIUpdate.cpp, which is not part of this model. The model's constructor takes the initial `m_flags` pattern as given.
- The `JetAIUpdate` object apart from `m_flags` (paths, sounds, module data with floating-point fields) is not modelled. `m_flags` is an `Int` kept as its 32-bit pattern.
- `FirewallHelperClass` detection (`detectFirewall`, port-allocation analysis, sockets) is network I/O and is not modelled; only the queries on `m_behavior` are.
- `GameLogic` beyond the inline members listed is not modelled. `isInSinglePlayerGame` is only declared in the header; its body in GameLogic.cpp is not part of this model.
- The `GameLogic` constructor, `setDefaults` and the maintenance of `m_objHash` (`addObjectToLookupTable`) are in GameLogic.cpp, which is not part of this model. The model has no constructor, and the table is any map.
- `ObjectID` is an unbounded `int`; the header does not show its width, and `INVALID_ID` is taken as 0.
- The game-mode values are `Int`, so `setGameMode` accepts any integer, as the source does.
- The Direct3D device is an oracle. `Init_Caps` (the hardware/software vertex-processing query) is not modelled: `Compute_Caps` receives the caps it reads.
- The N-patch, dot3 and gamma checks are booleans on those caps; the capability bit masks come from the DirectX headers, which are not part of this model.
- `Check_Render_To_Texture_Support` and `Check_Depth_Stencil_Support` are not called by `Compute_Caps` and are not modelled.
- `MAX_TEXTURE_STAGES` is defined in dx8wrapper.h, which is not part of this model; it is taken as 8.
- The `WW3DFormat` values come from ww3dformat.h, which is not part of this model. They are taken as UNKNOWN = 0, DXT1..DXT5 = 20..24 and COUNT = 25.
- The vendor and device name tables of dx8caps.cpp are not modelled; no modelled code reads them. The NVidia table lacks a comma after "GeForce2 MX" (lines 95-96), which joins it with the next name.
- `VendorIdType` and the device enums are declared in dx8caps.h, which is not part of this model. The model gives the vendor type in the order of the name table, and a device as its enum ordinal.
- `CapsWorkString` and `Shutdown` are only memory management.
- The floating-point fields of `SpecialAbilityUpdateModuleData` are not modelled: the ranges, the pack/unpack variation factor and the flee range. Neither are its names, templates, particle system and sounds, nor the INI field-parse table.
- The `SpecialAbilityUpdate` state machine (approach, packing, facing, triggering) is in SpecialAbilityUpdate.cpp, which is not part of this model.
- SpecialAbility.SpecialAbilityUpdate.constructor: the source constructor is in SpecialAbilityUpdate.cpp, which is not part of this model. The model's constructor builds a module in an arbitrary state: any data, preparation count and active flag.
- `UPDATE_SLEEP_NONE` and `UPDATE_SLEEP_FOREVER` are the two constructors of a datatype; their numeric values are not modelled.
- `Win32CDManager.cpp`, `iostream_adapter.h` and the other context headers are not part of the core and are not modelled.

## Findings

| source | as written | input that shows it | evidently intended | confidence | as-written member | corrected member |
|---|---|---|---|---|---|---|
| Dependencies/Utility/Utility/intrin_compat.h:32-33 | After `shift &= 31`, the fallback computes `value >> (32 - shift)`. For a masked shift of 0 that is a right shift by 32, the operand width, which C++ leaves undefined. | `_lrotl(v, 0)`, `_lrotl(v, 32)` or `_lrotl(v, -32)` on a compiler without `__builtin_rotateleft32` | A rotation by a multiple of 32 returns `value` unchanged, as the builtin does. | medium, not executed | Intrinsics.FallbackShiftsByWidth | Intrinsics.RotateLeft |
