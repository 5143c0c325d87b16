# Button monitor and RGB LED cycle of a FreeRTOS multitasking demo

This project is a Dafny model of the two pieces of sequential logic in a small
FreeRTOS demo for the BitDogLab board. Three tasks run on the board. One cycles
an RGB LED, one beeps a buzzer, and one polls two buttons.

- `button.dfy` (module `Button`) models one polling pass of `button_task`.
  Each button has a press latch. Reading the button low while its latch is
  clear sets the latch and toggles the paired task between suspended and
  running. Button A controls the LED task and button B controls the buzzer task.
  Reading the button high clears the latch. Each pass waits 50 ms, plus the
  200 ms debounce wait (`DEBOUNCE_TIME_MS`, `src/button.h:17`) after each
  toggle. The pure functions `StepChannel`, `Pass`, `RunChannel` and `Passes`
  specify the behaviour. The class `ButtonMonitor` has the fields `aPressed`,
  `bPressed`, `ledSuspended` and `buzzerSuspended`. Its method `PollPass` runs
  one pass of the loop, and `Poll` runs a finite prefix of the endless loop.
  Both are proved equal to the pure functions.
- `led_rgb.dfy` (module `LedRgb`) models `led_rgb_task`. `RgbLed.Init` drives
  the three colour pins low and starts at colour 0. `RgbLed.Step` lights the
  current pin, waits 500 ms, turns the pin off, and then advances the index
  0 → 1 → 2 → 0. `RgbLed.Run` runs a finite prefix of the endless loop.

Modelling choices:

- A pin level is a `bool`, with `true` meaning high. The buttons have
  pull-ups, so a low level means pressed.
- The source reads each button once in the `if` condition and, when that
  condition fails, a second time in the `else if`. A pass that toggles reads
  the button only once. The model takes the readings as one `Sample(first,
  second)`. `second` is consulted only when the `if` condition fails and is
  ignored on a toggling pass. The two readings may differ.
- `eTaskGetState(handle) == eSuspended` becomes a boolean "suspended" per task.
  `vTaskSuspend` sets that boolean and `vTaskResume` clears it.
- Both controlled tasks start as not suspended. `src/main.c:42-45` creates
  them with `xTaskCreate`, which makes a task ready.
- Each `vTaskDelay(pdMS_TO_TICKS(ms))` is returned as a count of milliseconds.
- `RgbLed.Step` returns the pin levels shown during its 500 ms wait. It leaves
  every pin off at the end. Together these cover every state the pins pass
  through in one iteration.

## Model

| member | source | states |
|---|---|---|
| `Button.StepChannel` | src/button.c:51-67 | A toggle happens exactly when the first reading is low and the latch is clear. A toggle flips the task's suspended flag exactly once and sets the latch. Nothing else changes the flag. Afterwards the latch is set exactly when the branch toggled, or when the latch was already set and the `else if` did not read high. |
| `Button.RunChannel` | src/button.c:48-67 | Over consecutive passes, one button toggles at most once per pass. Its task ends flipped exactly when the number of toggles is odd. |
| `Button.Releases` | src/button.c:65-66 | Counts the passes along a run whose `else if` reads high while the latch is set, clearing it. There are at most as many as passes. |
| `Button.TogglesNeedReleases` | src/button.c:51-67 | A toggle uses up the clear latch, and only a release gives it back. Exactly: toggles, plus one if the latch ends clear, equal one if the latch started clear, plus the releases. |
| `Button.OneTogglePerPress` | src/button.c:51-52 | Along a run with no release, a button toggles at most once, and not at all if its latch is already set. A held button is recognised once, not on every poll. |
| `Button.NoReleaseReleasesNothing` | src/button.c:65-66 | Passes whose `else if` never reads high release nothing, whatever the latch's state. |
| `Button.HeldKeepsLatch` | src/button.c:51-67 | If the latch is set and no high reading occurs, any number of passes makes no toggle and leaves the latch set and the task state unchanged. |
| `Button.PressAndRelease` | src/button.c:51-66 | Start from a clear latch. A low reading, then a hold of any length with no high reading, then one release toggles the task exactly once. The latch is clear again at the end. |
| `Button.TwoPressesRestore` | src/button.c:55-62 | The first complete press flips the task's state. A second complete press restores it. |
| `Button.Pass` | src/button.c:49-89 | In one pass, button A's branch changes only the LED channel and button B's branch changes only the buzzer channel. The pass waits 50 ms plus 200 ms per task whose state changed, so 50, 250 or 450 ms. |
| `Button.Passes` | src/button.c:48-90 | `n` passes wait between 50·n and 450·n ms in total. |
| `Button.PassesAreIndependent` | src/button.c:49-89 | Over any number of passes, the LED channel depends only on button A's readings and the buzzer channel only on button B's. The total wait is 50 ms per pass plus 200 ms per toggle. |
| `Button.ButtonMonitor.constructor` | src/button.c:45-46 | Both press latches start clear. Both controlled tasks start not suspended. |
| `Button.ButtonMonitor.PollPass` | src/button.c:49-89 | One pass of the loop over the class fields. It equals `Pass` on the fields' old values, in both the new field values and the returned wait. |
| `Button.ButtonMonitor.Poll` | src/button.c:48-90 | The first passes of the endless loop. The new state and the total wait equal `Passes`. |
| `LedRgb.Next` | src/led_rgb.c:53-58 | The increment-and-wrap moves the index from `i` to `(i + 1) mod 3`. The result always stays in {0, 1, 2}. |
| `LedRgb.IndexAfter` | src/led_rgb.c:42-58 | After `n` iterations from `start`, the colour index is `(start + n) mod 3`. |
| `LedRgb.CycleOfThree` | src/led_rgb.c:54-58 | Three iterations bring the colour index back to its value before them. |
| `LedRgb.Lit` | src/led_rgb.c:45-51 | The pattern shown during an iteration has exactly the current colour's pin high and the other two low. At most one pin is on. |
| `LedRgb.Shown` | src/led_rgb.c:42-51 | Over `n` iterations from colour `start`, iteration `j` shows only colour `(start + j) mod 3`. |
| `LedRgb.RgbLed.constructor` | src/led_rgb.c:14 | Binds the task to its three colour pins, whatever their levels are. |
| `LedRgb.RgbLed.Init` | src/led_rgb.c:32-39 | Afterwards all three pins are low and the colour index is 0. |
| `LedRgb.RgbLed.Step` | src/led_rgb.c:45-58 | During the wait, only the current colour is lit. Afterwards every pin is off again and the index has advanced by one mod 3. The iteration waits 500 ms. |
| `LedRgb.RgbLed.Run` | src/led_rgb.c:42-59 | `n` iterations from a state with all pins off: the patterns shown are `Shown(start, n)`, so iteration `j` lights only colour `(start + j) mod 3`. The index ends at `(start + n) mod 3`, every pin is off at the end, and the total wait is 500·n ms. |

## Left out

- `button_init` and the pin set-up calls (`gpio_init`, `gpio_set_dir`, `gpio_pull_up`) configure hardware and are not modelled. From the LED task's set-up loop, the model keeps only the `gpio_put(..., 0)` that drives each colour pin low.
- Pin numbers are configuration constants with no behaviour: `BUTTON_A_PIN`, `BUTTON_B_PIN`, `LED_R_PIN`, `LED_G_PIN`, `LED_B_PIN` and the buzzer pin.
- The buzzer task (`src/buzzer.c`) is PWM set-up through SDK calls plus a fixed on/off loop with no decisions. It is not modelled.
- Task creation and the scheduler start in `src/main.c` are kernel calls.
- The message-buffer macros forward to kernel stream-buffer functions. `message_buffer.h` is not part of this model.
- Scheduling is not modelled: preemption, priorities, and what suspension and `vTaskDelay` do to a running task. The LED and buzzer tasks' states are a boolean "suspended". `RgbLed.Step` is not gated on that flag, and the model does not link the monitor to the LED task.
- The full `eTaskState` enumeration is not modelled. The boolean abstraction matches `eTaskGetState(...) == eSuspended`: a task that is blocked or ready counts as not suspended and gets suspended.
- Delays are milliseconds, not wall-clock time. The conversion `pdMS_TO_TICKS` and its rounding to ticks are not modelled.
- The order of waits within a pass is not modelled: button A's debounce wait comes before button B's readings. Each pass returns only its total wait.
- Debouncing rests entirely on the 200 ms wait. A bounce that reads high after the wait clears the latch, and the next low reading toggles again. The model states this (`TogglesNeedReleases` counts every such release as a re-arm) but does not model bounce timing.
- The C `int` index cannot overflow because it stays in {0, 1, 2}. It is modelled as an unbounded `int`.
