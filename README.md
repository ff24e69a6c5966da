# Rickshaw ride-sharing firmware: the two controllers

This project models the control logic of the two microcontroller programs in
the rickshaw ride-sharing system and proves properties of it in Dafny.

- **The rickshaw unit** (`rickshaw-side-hardware/src/main.cpp`) is a
  tick-driven ride controller. While idle it polls the backend for pending
  rides and stores the first offer. The operator's serial commands ACCEPT,
  REJECT, PICKUP and COMPLETE move it through a ride. Pickup and completion
  are only allowed inside a 100 m geofence around the target. A simulated
  position steps toward the target once a second, and the position is
  reported every five seconds. The model is the class `Rickshaw.Unit`,
  whose fields are the program's session globals. Each method is proved
  equal to a pure step function on a `UnitView` snapshot. Lemmas about
  those functions show what one pass of `loop` can and cannot do.
- **The user kiosk** (`user-side-hardware/src/main.cpp`) is a nine-state
  machine. It has these stages:
  - an ultrasonic presence check: in range for 3000 ms;
  - a light-sensor privilege check: LDR above 3000;
  - a debounced confirm button that sends the ride request and keeps the
    returned ride ID;
  - status polling every 2000 ms: ACCEPTED lights yellow, PICKUP lights
    green, COMPLETED resets;
  - a 60000 ms acceptance timeout.

  The model is the class `Kiosk.Kiosk`, whose fields are the program's
  globals. A ghost log `entered` records every state the program assigns.
  Each handler is proved equal to a function on a `KioskView`. Lemmas prove:
  - one pass of `loop` keeps the kiosk consistent (flags, ride ID, LEDs and
    state agree);
  - a pass moves the kiosk along at most one lifecycle edge;
  - the timeout, privilege, LED and request conditions are exact: each
    event happens if and only if its condition holds.

Supporting modules:
- `Text` models Arduino `String::indexOf` and `toUpperCase`.
- `Navigation` models the waypoint table and its case-insensitive lookup,
  and the display classifiers: direction octant, points estimates,
  completion headline and ride timer.

Inputs stand in for what the firmware reads from the outside world:
- the millisecond clock is a `now` parameter;
- WiFi status is a parameter;
- backend replies are already-parsed HTTP code and fields;
- sensor readings are parameters;
- the operator's command is a parameter;
- the haversine distance and the one-step move are functions passed in.

Where the code's behaviour is easy to misread, the model follows the code:
- `resetSystem` clears the session. It does not clear the debounce timer or
  the status-poll timer.
- A lost echo keeps the kiosk in DETECTING and only forgets the start time.
- A status reply's word counts only when it is not at the very first
  character of the body, because the test is `indexOf(...) > 0`.
- PICKUP in a status reply moves WAITING_ACCEPTANCE straight to
  RIDE_ACTIVE.
- COMPLETED resets from any polled state.
- REQUEST_SENT is never entered.
- A drop-off refused by the backend leaves the rickshaw's ride unchanged.
  Nothing is marked "pending review".
- The rickshaw's waypoint lookup resolves an empty name to CUET_CAMPUS.
- The lookup's `"Pahar"` fallback can never fire, because the name was
  upper-cased first.

## Model

| member | source | states |
|---|---|---|
| Text.IndexOf | user-side-hardware/src/main.cpp:149-152 | `indexOf(pat, from)` is the first position at or after `from` where `pat` occurs, or -1 when it occurs nowhere from `from` on |
| Text.ContainsIff | rickshaw-side-hardware/src/main.cpp:106-126 | `indexOf(pat) >= 0` holds exactly when `pat` occurs somewhere in the string |
| Text.IndexOfChar | user-side-hardware/src/main.cpp:151-152 | searching for one character finds a position holding it, and no earlier position at or after `from` holds it |
| Text.UpperChar | rickshaw-side-hardware/src/main.cpp:97 | a lower-case ASCII letter becomes the capital at the same alphabet position; every other character is unchanged |
| Text.Upper | rickshaw-side-hardware/src/main.cpp:97 | `toUpperCase` keeps the length, turns each lower-case ASCII letter into its capital, and changes nothing else |
| Text.UpperIdempotent | rickshaw-side-hardware/src/main.cpp:97 | upper-casing twice is the same as upper-casing once |
| Text.UpperHasNoPahar | rickshaw-side-hardware/src/main.cpp:143 | an upper-cased name never contains "Pahar", so that half of the fallback test is dead |
| Navigation.FirstMatch | rickshaw-side-hardware/src/main.cpp:101-137 | the scan returns an entry that matches, and no earlier entry matches; None only when no entry matches |
| Navigation.ResolveTarget | rickshaw-side-hardware/src/main.cpp:95-149 | the new target is the first matching waypoint; with no match, PAHARTOLI if the name contains PAHAR, else the old target; it is always the old target or a waypoint |
| Navigation.ResolveIgnoresCase | rickshaw-side-hardware/src/main.cpp:97 | resolving a name gives the same target as resolving its upper-cased form |
| Navigation.ResolveByName | rickshaw-side-hardware/src/main.cpp:37-42 | every waypoint's own name, in any letter case, resolves to that waypoint |
| Navigation.NoOtherMatch | rickshaw-side-hardware/src/main.cpp:104-126 | no table entry matches the name of a later entry, so the scan order never hides a waypoint |
| Navigation.ResolveEmptyName | rickshaw-side-hardware/src/main.cpp:110-111 | an empty name resolves to CUET_CAMPUS whatever the current target |
| Navigation.Octant | rickshaw-side-hardware/src/main.cpp:624-631 | the arrow for a bearing in [0, 360) is a heading whose 45-degree sector contains the bearing |
| Navigation.SectorsDisjoint | rickshaw-side-hardware/src/main.cpp:624-631 | a bearing in [0, 360) lies in one sector only |
| Navigation.OctantIsSector | rickshaw-side-hardware/src/main.cpp:624-631 | the arrow shown is h exactly when the bearing lies in h's sector |
| Navigation.NavPointsEstimate | rickshaw-side-hardware/src/main.cpp:646-648 | "8-10" is shown exactly within 50 m, "5-8" exactly between 50 m (exclusive) and 100 m, and "Review" exactly outside the 100 m geofence |
| Navigation.OfferPointsEstimate | rickshaw-side-hardware/src/main.cpp:264-267 | an offer of at most 2 km shows "10"; "5-10" exactly above 5 km |
| Navigation.OfferEstimateMonotone | rickshaw-side-hardware/src/main.cpp:264-267 | a shorter offer never promises fewer points than a longer one |
| Navigation.CompletionLabel | rickshaw-side-hardware/src/main.cpp:485-495 | PERFECT exactly at 10 points; GREAT exactly at 8 or more other than 10; GOOD exactly at 5-7; COMPLETED exactly at 1-4; UNDER REVIEW exactly at 0 or fewer |
| Navigation.LabelMonotone | rickshaw-side-hardware/src/main.cpp:485-495 | up to 10 points, more points never give a lower headline |
| Navigation.SplitDuration | rickshaw-side-hardware/src/main.cpp:591-593 | minutes and seconds recombine to the elapsed whole seconds, with seconds below 60 |
| Rickshaw.AdvanceGates | rickshaw-side-hardware/src/main.cpp:767-775 | the report/poll/move half of a pass keeps the unit sound; it leaves the ride flags, points and target alone; offers are polled only while idle, with WiFi, and 3000 ms or more after the last poll; the stored offer changes only to a polled one with a new ID; the position moves only during a ride, more than 1000 ms after the last step, farther than 5 m from the target, and then by one step |
| Rickshaw.HandleKeepsSound | rickshaw-side-hardware/src/main.cpp:681-723 | a command keeps the unit sound and leaves position and timers alone; only ACCEPT and PICKUP change the target; a ride starts exactly when ACCEPT gets a 200 success reply, with WiFi up, an offer stored and no ride active; it then heads for the pickup with the pickup unconfirmed; a ride ends exactly when COMPLETE gets a 200 reply after pickup within 100 m; that adds exactly the awarded points, and points change at no other time |
| Rickshaw.StepKeepsSound | rickshaw-side-hardware/src/main.cpp:767-782 | a whole pass of `loop` keeps the unit sound and its timers within the clock, with the poll and movement gates; a ride starts only on a 200 success reply to ACCEPT with WiFi up; it ends only on a 200 reply to COMPLETE after pickup, within 100 m of the target at the moved position, adding exactly the awarded points |
| Rickshaw.Unit.constructor | rickshaw-side-hardware/src/main.cpp:49-60 | the unit starts with no offer, no ride, no target, zero points and zero timers at the start position |
| Rickshaw.Unit.SetTargetLocation | rickshaw-side-hardware/src/main.cpp:95-149 | only the target changes, to `ResolveTarget` of the name and the old target; a sound unit stays sound |
| Rickshaw.Unit.CheckForRideRequests | rickshaw-side-hardware/src/main.cpp:204-291 | the state and the estimate shown are those of `Poll`: gated by WiFi and 3000 ms; a 200 reply with a new offer stores it and shows its estimate; a sound unit stays sound |
| Rickshaw.Unit.AcceptRide | rickshaw-side-hardware/src/main.cpp:294-350 | the state is `Accept`'s: no change without an offer, during a ride, without WiFi or on a non-200 reply; success starts the ride toward the pickup; a taken ride drops the offer; a sound unit stays sound |
| Rickshaw.Unit.Reject | rickshaw-side-hardware/src/main.cpp:689-693 | only the stored ride ID is cleared; a sound unit stays sound |
| Rickshaw.Unit.ConfirmPickup | rickshaw-side-hardware/src/main.cpp:353-403 | the state is `Pickup`'s: only during an unconfirmed ride, within 100 m and on a 200 reply is the pickup confirmed and the target set to the destination; a sound unit stays sound |
| Rickshaw.Unit.CompleteRide | rickshaw-side-hardware/src/main.cpp:406-526 | the state and headline are `Complete`'s: only after pickup, within 100 m and on a 200 reply are points added, the session cleared and the headline chosen; a sound unit stays sound |
| Rickshaw.Unit.SimulateMovement | rickshaw-side-hardware/src/main.cpp:529-579 | the state and arrival flag are `Move`'s: during a ride and more than 1000 ms after the last step, step unless within 5 m of the target, which reports arrival; a sound unit stays sound |
| Rickshaw.Unit.SendLocationUpdate | rickshaw-side-hardware/src/main.cpp:659-662 | a report is sent, and the timer restarted, only with WiFi and 5000 ms or more since the last one; a sound unit stays sound |
| Rickshaw.Unit.HandleCommand | rickshaw-side-hardware/src/main.cpp:681-723 | the state is `Handle`'s: the command runs its operation; STATUS, HELP and unknown commands change nothing; a sound unit stays sound |
| Rickshaw.Unit.Tick | rickshaw-side-hardware/src/main.cpp:767-782 | one pass of `loop` yields `Step` of the old state and keeps the unit sound and its timers within the clock |
| Kiosk.ExtractRideId | user-side-hardware/src/main.cpp:144-156 | a ride ID is extracted exactly when the body contains `"rideID":` |
| Kiosk.IdFromSlice | user-side-hardware/src/main.cpp:149-153 | the ID is the slice of the body after the key up to the first comma when there is one; with no comma, up to the first `}`; with neither, to the end of the body |
| Kiosk.ExtractRideIdSlice | user-side-hardware/src/main.cpp:149-150 | the ID starts right after the first occurrence of `"rideID":` |
| Kiosk.SendRideRequest | user-side-hardware/src/main.cpp:120-163 | a ride ID is returned exactly when WiFi is up, the reply is 200 and it carries `"rideID":`, and it is the extracted one |
| Kiosk.StatusOf | user-side-hardware/src/main.cpp:304-334 | the reply reads as ACCEPTED exactly when it mentions it past position 0; as PICKUP exactly when it mentions PICKUP but not ACCEPTED; as COMPLETED exactly when it mentions COMPLETED and neither of the others |
| Kiosk.Reset | user-side-hardware/src/main.cpp:104-117 | after a reset the kiosk is consistent and IDLE, with no ride ID and the LEDs off; the debounce and poll timers are kept |
| Kiosk.UltrasonicKeepsConsistent | user-side-hardware/src/main.cpp:166-228 | the presence handler keeps the kiosk consistent, keeps its timers within the clock, and moves along a lifecycle edge |
| Kiosk.PrivilegeKeepsConsistent | user-side-hardware/src/main.cpp:231-255 | the privilege handler keeps the kiosk consistent and moves along a lifecycle edge |
| Kiosk.ButtonKeepsConsistent | user-side-hardware/src/main.cpp:258-287 | the button handler keeps the kiosk consistent, keeps its timers within the clock, and moves along a lifecycle edge |
| Kiosk.StatusKeepsConsistent | user-side-hardware/src/main.cpp:290-339 | the status poll keeps the kiosk consistent, keeps its timers within the clock, and moves along a lifecycle edge |
| Kiosk.TimeoutKeepsConsistent | user-side-hardware/src/main.cpp:342-364 | the timeout handler keeps the kiosk consistent, keeps its timers within the clock, and moves along a lifecycle edge |
| Kiosk.StepKeepsConsistent | user-side-hardware/src/main.cpp:438-469 | one pass of `loop` keeps the kiosk consistent and its timers within the clock, and moves it along one lifecycle edge at most |
| Kiosk.StepTimesOut | user-side-hardware/src/main.cpp:342-364 | TIMEOUT_ERROR is entered exactly when the kiosk was waiting for acceptance, the poll did not move it on, and more than 60000 ms have passed since the request; it then ends IDLE with no ride ID and the LEDs off |
| Kiosk.StepReachesPrivilege | user-side-hardware/src/main.cpp:198-216 | PRIVILEGE_CHECK is entered exactly when DETECTING with a recorded start, a reading in (0, 1000] and 3000 ms or more elapsed; once triggered, never again |
| Kiosk.StepLightsLeds | user-side-hardware/src/main.cpp:304-327 | yellow comes on exactly when the kiosk is waiting for acceptance and a due poll (WiFi up, 2000 ms since the last) gets a 200 reply mentioning ACCEPTED; green comes on exactly when the kiosk is waiting or accepted and a due poll gets a 200 reply mentioning PICKUP and not ACCEPTED; red is never lit between passes |
| Kiosk.StepSendsRequest | user-side-hardware/src/main.cpp:258-287 | a request succeeds exactly when the kiosk is in WAITING_CONFIRM with the button high past the 200 ms debounce, WiFi up, and a 200 reply carrying `"rideID":`; the kiosk then waits for acceptance, holding the extracted ride ID and the request time |
| Kiosk.Kiosk.constructor | user-side-hardware/src/main.cpp:51-67 | the kiosk starts IDLE, consistent, with every flag false, no ride ID, zero timers and LEDs off |
| Kiosk.Kiosk.ResetSystem | user-side-hardware/src/main.cpp:104-117 | the state becomes `Reset`'s, and IDLE is logged as entered; the kiosk is then consistent |
| Kiosk.Kiosk.CheckUltrasonicSensor | user-side-hardware/src/main.cpp:166-228 | the state and the states entered are `Ultrasonic`'s: no echo forgets the start time; in range, the first reading enters DETECTING and 3000 ms later PRIVILEGE_CHECK; out of range before the trigger, IDLE; from a consistent IDLE or DETECTING kiosk it stays consistent, along one lifecycle edge |
| Kiosk.Kiosk.CheckPrivilegeVerification | user-side-hardware/src/main.cpp:231-255 | the state and the states entered are `Privilege`'s: a reading above 3000 verifies once and enters WAITING_CONFIRM; from a consistent PRIVILEGE_CHECK kiosk it stays consistent, along one lifecycle edge |
| Kiosk.Kiosk.CheckButtonPress | user-side-hardware/src/main.cpp:258-287 | the state and the states entered are `Button`'s: a debounced press sends the request; success waits for acceptance with the ride ID kept, failure resets; from a consistent WAITING_CONFIRM kiosk it stays consistent, along one lifecycle edge |
| Kiosk.Kiosk.CheckRideStatus | user-side-hardware/src/main.cpp:290-339 | the state and the states entered are `Status`'s: with WiFi, every 2000 ms, poll; ACCEPTED, PICKUP and COMPLETED act as stated for `StatusOf`; from a consistent kiosk that has sent its request it stays consistent, along one lifecycle edge |
| Kiosk.Kiosk.CheckTimeout | user-side-hardware/src/main.cpp:342-364 | the state and the states entered are `Timeout`'s: after 60000 ms waiting, TIMEOUT_ERROR then IDLE; from a consistent kiosk it stays consistent, along one lifecycle edge |
| Kiosk.Kiosk.Loop | user-side-hardware/src/main.cpp:438-469 | one pass dispatches on the state as `Step` does, logs the states entered, keeps the kiosk consistent and its timers within the clock, and moves along one lifecycle edge at most |

## Left out

- WiFi connection, HTTP requests and JSON payloads are not modelled. This
  covers `registerRickshaw`, the setup retries and the request bodies. Each
  reply is an input: its HTTP code and the parsed fields.
- The rickshaw's substring scraping of replies is not modelled. This covers
  the `"rides":[` test, the ride fields, `"success":true` and
  `pointsEarned`. The parsed values are inputs. The kiosk's ride-ID
  extraction and status-word tests are modelled.
- Haversine distance, bearing and the latitude/longitude step are
  floating-point trigonometry. They are passed in as functions
  (`distanceTo`, `stepToward`) or as values (`distance`, `bearing`).
- NaN and infinity are not modelled; distances and bearings are reals.
- Sensor conversions are left out: `pulseIn` and the 0.034/2 scaling,
  `analogRead` and `digitalRead`. Their results are inputs (`Echo`, `ldr`,
  `buttonHigh`).
- The OLED output, the buzzer, `delay`, Serial logging and the debug timers
  are left out. Only the classifiers that choose what is displayed are
  modelled.
- `lastLEDBlink`, which only paces the "Waiting..." screen in `checkTimeout`, is left out.
- The red-LED blink loop that `setup` enters when the display fails is left out.
- The navigation screen's static ride-start timer is left out.
  `SplitDuration` models only its minutes/seconds split of an elapsed time.
- Reading a serial command line, and trimming and upper-casing it, is not
  modelled. Commands are a datatype.
- `millis()` wrap-around is not modelled. The clock is an unbounded `nat`,
  and callers must keep timers at or below `now`. Each handler reads one
  `now`, while the firmware calls `millis()` again inside some handlers.
- Rickshaw.Unit.CompleteRide: `totalPoints` is an unbounded integer. The
  firmware's 32-bit `int` overflow after about two billion points is not
  modelled.
- Characters are Unicode scalars rather than bytes. As with C `toupper`
  in the "C" locale, `toUpperCase` changes only ASCII letters.
- Embedded NUL characters in Arduino `String`s are not modelled.
- The kiosk's `setup` body, apart from its initial state, is left out:
  pin modes, the display and the WiFi join. The constructor gives the state
  that `setup` leaves through `resetSystem`.
