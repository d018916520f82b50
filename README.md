# react-native-atomic-ui, modelled in Dafny

This project models the behaviour of react-native-atomic-ui, a React Native
component library, as Dafny definitions with proved properties. The model
covers:

- **The numeric helpers** `parseIntOrZero` and `clamp` (`math.dfy`).
  - `parseInt` follows ECMAScript: white space is skipped, an optional sign is read, then the longest run of decimal digits.
  - `String(number)` switches to exponential notation from 10^21.
- **The theme provider** (`theme_provider.dfy`).
  - Its `isDark` flag is seeded from the `defaultTheme` mode, flipped by `toggleTheme`, and overwritten by host colour-scheme changes only in system mode.
  - The effect re-runs only when the host's dark flag or the mode changes.
  - `useTheme` fails outside a provider.
  - The behaviour is a pure step function, `ThemeContext.Step`. The class `ThemeContext.ThemeProvider` holds the same state in fields, and its methods are proved to follow `Step`.
- **Collapsible** (`collapsible.dfy`).
  - Its `expanded` flag is held in a class and flipped by `ToggleExpanded`.
  - Each press records the layout-animation call before the state change.
  - The body is mounted only while expanded.
- **The controlled inputs**: CheckBox, RadioButton, Button and Input.
  - For each, the model states which callback calls a press or an edit makes, with what argument.
  - It also states the colour priorities between disabled, checked or selected, error and plain states.
  - CheckBox and RadioButton render the same optional label; it is defined once, in `control_label.dfy`.
- **The style derivations** of Box, Row, Column, Text and its variant wrappers, ProgressBar, Divider and Badge.
  - Each is a function from props and theme tokens to a style map.

A style is a `map<StyleKey, StyleValue>`. A style array is a sequence of
entries:

- an `Object` is a style object, or a falsy value;
- a `Prop` is a one-key `x && { key: x }` entry.

`Styles.Flatten` flattens the array left to right, and a later key wins.
`Styles.Lookup` is a reference definition that works one key at a time: the
value comes from the last entry that sets the key. `Styles.FlattenLookup`
proves that the two agree. Every component's "style at key `k`" lemma goes
through that pair, and each of those lemmas ends with the caller's `style`
winning over the component's own value.

Theme tokens are abstract: a `Tokens.Theme` is a parameter holding the
palette, the typography scale, the spacing scale and the radius scale. Hooks,
the host platform and the callbacks become values:

- the host colour scheme is an event;
- a callback is the sequence of calls it receives;
- rendering is a datatype of the computed styles and of which parts are mounted.

Where the library's own description and its code differ, the model follows
the code. The description states that `clamp(v, min, max)` always lies in
[min, max]. The code returns `max` when `min > max`, and
`MathUtil.Clamp` states exactly that.

## Model

| member | source | states |
|---|---|---|
| `Styles.OrElse` | src/components/typography/Text.tsx:14 | `value \|\| fallback` on an optional string: a non-empty value is kept, an absent or empty one falls back |
| `Styles.FlattenLookup` | src/components/layouts/__tests__/Box.test.tsx:8-16 | flattening a style array gives every key the value of the last entry that sets it, and no value when no entry does |
| `Styles.FlattenKeys` | src/components/layouts/__tests__/Box.test.tsx:8-16 | a key is in the flattened style exactly when some entry of the array sets it |
| `Styles.FlattenLastWins` | src/components/layouts/__tests__/Box.test.tsx:8-16 | the entry with the highest index that sets a key decides its value |
| `Styles.FlattenAppend` | src/components/layouts/Box.tsx:50 | an entry appended last (the caller's `style`) overrides every key it sets and keeps the others |
| `Styles.FlattenSkipsFalsy` | src/components/layouts/Box.tsx:33-51 | a falsy entry (an unset prop or style) changes nothing |
| `Styles.LookupConcat` | src/components/layouts/Box.tsx:86-104 | splitting a style array into two parts: the later part's value wins, the earlier part's value stands otherwise |
| `Styles.AtUnion` | src/components/inputs/Button.tsx:87-92 | an object spread `{...a, ...b}` takes each key from `b` when `b` sets it, else from `a` |
| `Tokens.TypographyStyle` | src/components/typography/Text.tsx:13 | a typography entry sets only font keys: the variant's font size, font weight and line height, and its letter spacing exactly when the variant has one |
| `MathUtil.TrimStart` | src/utilities/math.ts:8 | `parseInt` skips a prefix of white space and stops at the first other character |
| `MathUtil.DigitPrefix` | src/utilities/math.ts:8 | the digits read are the longest run of decimal digits at the start |
| `MathUtil.ParseIntOrZeroReads` | src/utilities/math.ts:8-9 | on white space, an optional sign, digits and a rest that starts with no digit: the signed value of the digits, or 0 (not NaN) when there are none |
| `MathUtil.ParseIntOrZeroNoDigits` | src/utilities/math.ts:8-9 | no digit after the white space and the sign gives 0 |
| `MathUtil.ParseIntOrZeroDigitPrefix` | src/utilities/math.ts:8 | a string starting with digits gives their value, and what follows them is ignored |
| `MathUtil.ParseIntOrZeroAbsent` | src/utilities/math.ts:5-7 | undefined and null give 0 |
| `MathUtil.DecimalDigitsValue` | src/utilities/math.ts:8 | the digits `String` writes for a number below 10^21 read back as that number |
| `MathUtil.ParseIntOrZeroInteger` | src/utilities/math.ts:4-10 | every integer below 10^21 in magnitude passes through `String` and `parseInt` unchanged |
| `MathUtil.ParseIntOrZeroLargeInteger` | src/utilities/math.ts:4-10 | from 10^21 up, `String` writes an exponent, so the result is the signed first digit |
| `MathUtil.Clamp` | src/utilities/math.ts:26-28 | the result is at most `max`, and at least `min` when `min <= max`. A value in range is kept, a value below `min` gives `min`, a value above `max` gives `max`, and `min > max` gives `max` |
| `MathUtil.ClampIdempotent` | src/utilities/math.ts:27 | clamping twice is clamping once, for any bounds |
| `ThemeContext.EffectiveMode` | src/theme/index.tsx:19 | `defaultTheme` is `system` unless given |
| `ThemeContext.IsSystemDark` | src/theme/index.tsx:21-22 | only the host scheme `dark` counts as dark; `light` and null do not |
| `ThemeContext.InitialIsDark` | src/theme/index.tsx:24-29 | the initial flag is the host's in system mode, false in light mode, true in dark mode |
| `ThemeContext.InitialFlag` | src/theme/index.tsx:19-29 | mounting gives that initial flag for the mode `defaultTheme` selects |
| `ThemeContext.ToggleFlips` | src/theme/index.tsx:40-42 | `toggleTheme` flips `isDark` in every mode, changes nothing else, and two toggles restore the state |
| `ThemeContext.HostChangeFollowedInSystemMode` | src/theme/index.tsx:32-36 | in system mode a change of the host's dark flag is copied into `isDark` |
| `ThemeContext.HostIgnoredInFixedMode` | src/theme/index.tsx:32-36 | in light or dark mode a host change leaves `isDark` alone |
| `ThemeContext.ToggleSurvivesUnchangedHost` | src/theme/index.tsx:32-36 | a re-render whose host flag has not changed does not re-run the effect, so a manual toggle persists |
| `ThemeContext.ModeChange` | src/theme/index.tsx:32-36 | switching to system mode adopts the host flag; switching to light or dark keeps `isDark` |
| `ThemeContext.ModeKept` | src/theme/index.tsx:19 | without mode changes the mode never changes, whatever else happens |
| `ThemeContext.FixedModeIgnoresHost` | src/theme/index.tsx:32-36 | in light or dark mode any sequence of host events leaves `isDark` as it was |
| `ThemeContext.SystemModeFollowsHost` | src/theme/index.tsx:32-36 | in system mode, once in step with the host, `isDark` stays equal to the host's latest dark flag |
| `ThemeContext.TogglesOnly` | src/theme/index.tsx:40-42 | after `n` toggles `isDark` is flipped exactly when `n` is odd |
| `ThemeContext.PublishedTheme` | src/theme/index.tsx:38 | the dark theme is published exactly when `isDark` holds, the light theme exactly when it does not |
| `ThemeContext.UseTheme` | src/theme/index.tsx:59-64 | without a provider the lookup fails with "useTheme must be used within a ThemeProvider"; with one it returns the provider's value |
| `ThemeContext.ThemeProvider.constructor` | src/theme/index.tsx:17-29 | the fields after mounting are `Initial(defaultTheme, scheme)` |
| `ThemeContext.ThemeProvider.ToggleTheme` | src/theme/index.tsx:40-42 | the new state is one `Toggle` step from the old, with `isDark` negated |
| `ThemeContext.ThemeProvider.SystemChanged` | src/theme/index.tsx:32-36 | the new state is one host-scheme step from the old |
| `ThemeContext.ThemeProvider.ModeChanged` | src/theme/index.tsx:32-36 | the new state is one mode-change step from the old |
| `CollapsibleSection.Mount` | src/components/layouts/Collapsible.tsx:25-30 | the initial `expanded` is `initiallyExpanded`, false unless given, and no call has been made |
| `CollapsibleSection.PressFlips` | src/components/layouts/Collapsible.tsx:32-35 | each press flips `expanded`, and two presses restore it |
| `CollapsibleSection.PressAnimatesFirst` | src/components/layouts/Collapsible.tsx:33-34 | a press keeps the calls paired, the animation first, and its last call sets the new flag |
| `CollapsibleSection.PressesParity` | src/components/layouts/Collapsible.tsx:32-35 | after `n` presses the flag is flipped exactly when `n` is odd, with one animation configured per press |
| `CollapsibleSection.Collapsible.constructor` | src/components/layouts/Collapsible.tsx:30 | the fields after mounting are `Mount(initiallyExpanded)` |
| `CollapsibleSection.Collapsible.ToggleExpanded` | src/components/layouts/Collapsible.tsx:32-35 | the new state is one `Press` from the old: the animation call, then the negated flag |
| `CollapsibleSection.Indicator` | src/components/layouts/Collapsible.tsx:64 | the indicator is the minus sign exactly while expanded, and `+` exactly while collapsed |
| `CollapsibleSection.IndicatorWrittenIsNotMinus` | src/components/layouts/Collapsible.tsx:64 | the glyph as the file holds it is three characters and not the minus sign |
| `CollapsibleSection.ContentOnlyWhenExpanded` | src/components/layouts/Collapsible.tsx:60-79 | the body is mounted exactly while expanded; the title is shown in both states |
| `CollapsibleSection.WrapperByKey` | src/components/layouts/Collapsible.tsx:38-46 | the wrapper has a 1-wide border in the border colour, radius `md`, clipped, and the caller's style wins key by key |
| `CollapsibleSection.TitleWeightAndColor` | src/components/layouts/Collapsible.tsx:60 | the title is weight `600` in the theme's text colour |
| `ControlLabel.LabelColor` | src/components/inputs/CheckBox.tsx:52 | the label colour is `textTertiary` exactly when disabled and `text` exactly when enabled |
| `ControlLabel.Label` | src/components/inputs/CheckBox.tsx:47-59 | the label is rendered exactly when a non-empty one is given, with that text |
| `ControlLabel.LabelStyle` | src/components/inputs/CheckBox.tsx:47-59 | a shown label has the body1 font size, the colour for its state and the `sm` left margin |
| `CheckBoxComponent.IsDisabled` | src/components/inputs/CheckBox.tsx:13 | `disabled` is false unless given |
| `CheckBoxComponent.Press` | src/components/inputs/CheckBox.tsx:22-23 | a press makes no call while disabled, and otherwise exactly one call, with `!value` |
| `CheckBoxComponent.PressTwiceRestores` | src/components/inputs/CheckBox.tsx:22 | a parent that feeds the reported value back gets the original value from the second press |
| `CheckBoxComponent.BorderToken` | src/components/inputs/CheckBox.tsx:31-35 | the border is `disabled` exactly when disabled, `primary` exactly when enabled and checked, `border` otherwise |
| `CheckBoxComponent.Background` | src/components/inputs/CheckBox.tsx:36-40 | the fill is `disabled` exactly when disabled, `primary` exactly when enabled and checked, `'transparent'` otherwise |
| `CheckBoxComponent.SolidWhenCheckedOrDisabled` | src/components/inputs/CheckBox.tsx:31-40 | while disabled or checked, border and fill are the same colour |
| `CheckBoxComponent.Checkmark` | src/components/inputs/CheckBox.tsx:45 | the checkmark is shown exactly when `value` holds, as the check mark |
| `CheckBoxComponent.CheckmarkWrittenIsNotCheck` | src/components/inputs/CheckBox.tsx:45 | the glyph as the file holds it is three characters and not the check mark; its style is unchanged |
| `CheckBoxComponent.RenderFollowsProps` | src/components/inputs/CheckBox.tsx:20-59 | no state of its own: the checkmark follows `value`, the label follows `label`, and the touchable is disabled exactly when a press makes no call |
| `CheckBoxComponent.BoxStyleValues` | src/components/inputs/CheckBox.tsx:28-75 | the box is 24 by 24, with a 2-wide border in its border colour, its fill, and radius `xs` |
| `CheckBoxComponent.ContainerByKey` | src/components/inputs/CheckBox.tsx:24 | the container is a centred row, and the caller's style wins key by key |
| `RadioButtonComponent.IsDisabled` | src/components/inputs/RadioButton.tsx:14 | `disabled` is false unless given |
| `RadioButtonComponent.IsSelected` | src/components/inputs/RadioButton.tsx:19 | selected exactly when `value === selected` |
| `RadioButtonComponent.Press` | src/components/inputs/RadioButton.tsx:24-25 | a press makes no call while disabled, and otherwise exactly one call, with the button's own `value` |
| `RadioButtonComponent.PressSelects` | src/components/inputs/RadioButton.tsx:19-24 | a parent that stores the reported value makes the pressed button selected, and pressing it again reports the same value |
| `RadioButtonComponent.RingToken` | src/components/inputs/RadioButton.tsx:34-38 | the ring is `disabled` exactly when disabled, `primary` exactly when enabled and selected, `border` otherwise |
| `RadioButtonComponent.DotToken` | src/components/inputs/RadioButton.tsx:50 | the dot is `disabled` exactly when disabled and `primary` exactly when enabled |
| `RadioButtonComponent.DotMatchesRing` | src/components/inputs/RadioButton.tsx:34-50 | a selected button's dot has the colour of its ring |
| `RadioButtonComponent.Dot` | src/components/inputs/RadioButton.tsx:45-57 | the inner dot is mounted exactly when selected |
| `RadioButtonComponent.RenderFollowsProps` | src/components/inputs/RadioButton.tsx:19-71 | the dot follows `value === selected`, the label follows `label`, and the touchable is disabled exactly when a press makes no call |
| `RadioButtonComponent.RingValues` | src/components/inputs/RadioButton.tsx:30-43 | the ring is 24 by 24 with radius 12 and a 2-wide border in the ring colour |
| `RadioButtonComponent.DotValues` | src/components/inputs/RadioButton.tsx:47-55 | the dot is 12 by 12 with radius 6, in the dot colour |
| `ButtonComponent.EffectiveVariant` | src/components/inputs/Button.tsx:18 | `variant` is `primary` unless given |
| `ButtonComponent.EffectiveSize` | src/components/inputs/Button.tsx:19 | `size` is `medium` unless given |
| `ButtonComponent.Inactive` | src/components/inputs/Button.tsx:20-21 | inactive exactly when `disabled` or `loading` is true; both are false unless given |
| `ButtonComponent.Press` | src/components/inputs/Button.tsx:101-102 | a press calls `onPress` once, or not at all exactly when the button is inactive |
| `ButtonComponent.Fill` | src/components/inputs/Button.tsx:29-58 | primary, secondary and danger fill with the `primary`, `secondary` and `error` colours; the fill is transparent exactly for ghost |
| `ButtonComponent.Edge` | src/components/inputs/Button.tsx:29-58 | a filled variant's border is the token of its fill; ghost's border is `primary` |
| `ButtonComponent.MinHeightOf` | src/components/inputs/Button.tsx:61-83 | minimum height 32, 48 and 56 for small, medium and large |
| `ButtonComponent.OpacityOf` | src/components/inputs/Button.tsx:91 | opacity is 0.5 exactly when inactive, and 1 exactly when active |
| `ButtonComponent.ButtonStyleByKey` | src/components/inputs/Button.tsx:85-94 | at every key: the caller's value if its style sets one, else the variant and size tables' value, radius `md` and opacity |
| `ButtonComponent.VariantColours` | src/components/inputs/Button.tsx:29-58 | filled variants use one colour for fill and border, with no border width; ghost is transparent with a 1-wide `primary` border |
| `ButtonComponent.DimmedExactlyWhenInert` | src/components/inputs/Button.tsx:91-102 | without a caller opacity, the button is dimmed exactly when a press does not fire |
| `ButtonComponent.TextColorOf` | src/components/inputs/Button.tsx:96 | the text colour is `primary` exactly for ghost and `white` for every other variant |
| `ButtonComponent.LabelVariant` | src/components/inputs/Button.tsx:115 | the label uses `body3` exactly for small buttons, `body1` otherwise |
| `ButtonComponent.ContentByState` | src/components/inputs/Button.tsx:106-121 | a spinner replaces the content exactly while loading, small exactly for small buttons, in the text colour; otherwise the icon and label are shown |
| `ButtonComponent.LabelStyle` | src/components/inputs/Button.tsx:114-119 | the label is weight `600` at the font size of `body3` for small buttons and `body1` otherwise |
| `ButtonComponent.TouchDisabledWhenInert` | src/components/inputs/Button.tsx:102 | the touchable is disabled exactly when a press does not fire |
| `InputComponent.IsEditable` | src/components/inputs/Input.tsx:15 | editable unless `editable` is false |
| `InputComponent.IsSecure` | src/components/inputs/Input.tsx:16 | secure entry only when `secureTextEntry` is true |
| `InputComponent.Keyboard` | src/components/inputs/Input.tsx:17 | the keyboard is `default` unless given |
| `InputComponent.IsMultiline` | src/components/inputs/Input.tsx:18 | multi-line only when `multiline` is true |
| `InputComponent.Lines` | src/components/inputs/Input.tsx:19 | `numberOfLines` is 1 unless given |
| `InputComponent.HasError` | src/components/inputs/Input.tsx:32 | an error is set exactly when `error` is a non-empty string |
| `InputComponent.LinesPassed` | src/components/inputs/Input.tsx:49 | the field gets `numberOfLines` when multi-line, and 1 otherwise |
| `InputComponent.MinHeightOf` | src/components/inputs/Input.tsx:60 | a minimum height is set exactly when multi-line |
| `InputComponent.MinHeightFitsLines` | src/components/inputs/Input.tsx:49-60 | the minimum height is 24 per line handed to the field plus `md` above and below, and grows by 24 per added line |
| `InputComponent.LabelToken` | src/components/inputs/Input.tsx:32 | the label is `error` exactly while there is an error, `textSecondary` otherwise |
| `InputComponent.BorderToken` | src/components/inputs/Input.tsx:55 | the border is `error` exactly while there is an error, `border` otherwise |
| `InputComponent.FillToken` | src/components/inputs/Input.tsx:59 | the fill is `surface` exactly when editable, `disabled` otherwise |
| `InputComponent.Edit` | src/components/inputs/Input.tsx:40-45 | the field reports an edit by calling the handler it was given once, with the new text; it makes no call while read-only |
| `InputComponent.EditReachesParent` | src/components/inputs/Input.tsx:42-45 | `onChangeText` is handed to the field unchanged: an edit reaches the parent's handler once, with the text unchanged, exactly when the input is editable |
| `InputComponent.EditRoundTrip` | src/components/inputs/Input.tsx:41-42 | a parent that stores the reported text as `value` renders a field showing exactly that text, with the same handler |
| `InputComponent.LabelLine` | src/components/inputs/Input.tsx:27-39 | the label is rendered exactly when a non-empty one is given |
| `InputComponent.ErrorLine` | src/components/inputs/Input.tsx:64-73 | the error line is rendered exactly while there is an error, with the message |
| `InputComponent.FieldByKey` | src/components/inputs/Input.tsx:51-62 | at every key the field style has its own value (border, radius, padding, colours, minimum height), else the body1 typography's |
| `InputComponent.LabelColour` | src/components/inputs/Input.tsx:29-35 | a shown label is in the error colour exactly while there is an error |
| `InputComponent.ErrorLineColour` | src/components/inputs/Input.tsx:64-73 | the error line is in the error colour |
| `InputComponent.BorderColour` | src/components/inputs/Input.tsx:55 | the field border is the error colour while there is an error, the border colour otherwise |
| `InputComponent.ErrorColoursAgree` | src/components/inputs/Input.tsx:27-73 | with an error set, the label, the border and the error line all take the error colour |
| `InputComponent.FillFollowsEditable` | src/components/inputs/Input.tsx:45-59 | the field is editable as the props say, and filled with `surface` when editable and `disabled` otherwise |
| `ProgressBarComponent.HeightOf` | src/components/display/ProgressBar.tsx:11 | `height` is 8 unless given |
| `ProgressBarComponent.RadiusOf` | src/components/display/ProgressBar.tsx:14 | `borderRadius` is the `full` token unless given |
| `ProgressBarComponent.Clamped` | src/components/display/ProgressBar.tsx:21 | the clamped progress lies in [0, 1], equals the progress inside it, and is 0 below and 1 above |
| `ProgressBarComponent.ClampedIsClamp` | src/components/display/ProgressBar.tsx:21 | the bar clamps as `clamp(progress, 0, 1)` does, and clamping again changes nothing |
| `ProgressBarComponent.FillPercent` | src/components/display/ProgressBar.tsx:39 | the fill width is the clamped progress times 100, in [0, 100] |
| `ProgressBarComponent.FillMonotone` | src/components/display/ProgressBar.tsx:39 | more progress never gives a narrower fill |
| `ProgressBarComponent.TrackByKey` | src/components/display/ProgressBar.tsx:25-33 | the track has the `height` prop, the given background colour or else `border`, the radius token, clipping, and the caller's style wins |
| `ProgressBarComponent.FillValues` | src/components/display/ProgressBar.tsx:36-42 | the fill is full height, as wide as the clamped progress, in the given colour or else `primary` |
| `DividerComponent.OrientationOf` | src/components/display/Divider.tsx:10 | horizontal unless given |
| `DividerComponent.ThicknessOf` | src/components/display/Divider.tsx:11 | `thickness` is 1 unless given |
| `DividerComponent.DividerByKey` | src/components/display/Divider.tsx:20-27 | horizontal gives height = thickness and width 100%, vertical the reverse; the colour is the given one or else `border`; the caller's style wins |
| `DividerComponent.TurnSwapsAxes` | src/components/display/Divider.tsx:23-25 | turning a divider swaps its height and width |
| `BadgeComponent.VariantOf` | src/components/display/Badge.tsx:11 | `variant` is `primary` unless given |
| `BadgeComponent.SizeOf` | src/components/display/Badge.tsx:12 | `size` is `medium` unless given |
| `BadgeComponent.VariantToken` | src/components/display/Badge.tsx:18-25 | each variant takes the theme colour of the same name: primary, secondary, success, error, warning, info |
| `BadgeComponent.VariantTokenInjective` | src/components/display/Badge.tsx:18-25 | distinct variants name distinct theme colours |
| `BadgeComponent.FontSizeOf` | src/components/display/Badge.tsx:27-43 | font size 10, 12 and 14 for small, medium and large |
| `BadgeComponent.SizeTable` | src/components/display/Badge.tsx:27-43 | each size sets exactly the two paddings and its font size |
| `BadgeComponent.ContainerByKey` | src/components/display/Badge.tsx:47-55 | the container has the variant's colour, the `full` radius, `flex-start` self-alignment and the size's paddings and font size, and the caller's style wins |
| `BadgeComponent.TextMatchesContainer` | src/components/display/Badge.tsx:58-63 | the text is white, weight `600`, at the container's font size unless the caller's style changes it |
| `Box.BoxStyleByKey` | src/components/layouts/Box.tsx:33-51 | at every key: the caller's value if its style sets one, else the prop's value; tokens map through the spacing and radius scales |
| `Box.RowStyleByKey` | src/components/layouts/Box.tsx:64-111 | as Box, with `flexDirection` row first and `alignItems` center unless given |
| `Box.ColumnStyleByKey` | src/components/layouts/Box.tsx:117-164 | as Box, with `flexDirection` column first and no default alignment |
| `Box.RowColumnIgnoreDirection` | src/components/layouts/Box.tsx:64-83 | Row and Column give the same style whatever `flexDirection` prop is passed |
| `Box.UnsetPropsEmpty` | src/components/layouts/Box.tsx:33-51 | a Box with no props has an empty style |
| `Box.ZeroKeptEmptyColourDropped` | src/components/layouts/Box.tsx:34-48 | `flex` and `width` of 0 are kept, while an empty background colour is dropped |
| `Box.DefaultDirections` | src/components/layouts/Box.tsx:64-157 | with no props, a Row is a centred row and a Column is a column with no alignment |
| `TextComponent.EffectiveVariant` | src/components/typography/Text.tsx:9 | `variant` is `body1` unless given |
| `TextComponent.TextStyleByKey` | src/components/typography/Text.tsx:12-17 | at every key: the caller's value if its style sets one, else the colour and alignment from the props, else the variant's typography |
| `TextComponent.TextColor` | src/components/typography/Text.tsx:14 | without a caller style the colour is always set: the given non-empty one, else the theme's text colour |
| `TextComponent.TextAlignOnlyWhenGiven` | src/components/typography/Text.tsx:15 | `textAlign` is set exactly when the prop or the caller's style sets it |
| `TextComponent.VariantText` | src/components/typography/Text.tsx:30-92 | a wrapper forces its own variant over any variant passed, and keeps the other props |
| `TextComponent.VariantTextFontSize` | src/components/typography/Text.tsx:30-92 | a wrapper's font size is its variant's, unless the caller's style overrides it |

## Left out

- Rendering is not modelled: JSX trees, host primitives, children, `testID`, `activeOpacity`, the `placeholder` text and the Button `icon` node. Each view is reduced to its computed styles, which parts are mounted, and the callback calls.
- `LayoutAnimation.configureNext` and the Android `UIManager` setup are not modelled as an animation. The call is only recorded, as `ConfigureAnimation`, in the order of calls a press makes.
- `useColorScheme` is not a live subscription here. The host scheme is an input event to the provider's step function. React's batching and the timing of re-renders are not modelled.
- `parseFloatOrZero` is not modelled, because it is floating-point parsing.
- `MathUtil.ParseIntOrZero`: JavaScript numbers are modelled as mathematical integers. Non-integral numbers, NaN, infinities and the rounding of large integers to doubles are not modelled.
- Beyond 2^53, `parseInt` in JavaScript loses precision on long digit strings. The model reads the digits exactly.
- `MathUtil.ParseIntOrZeroLargeInteger`: from 10^21 up, `String` is modelled with the exact decimal digits of the integer. JavaScript writes the shortest digits that round-trip to the same double, and these can start with a different digit. For example, the double 1e23 is exactly 99999999999999991611392. JavaScript writes `"1e+23"`, so `parseIntOrZero` gives 1, but the model gives 9.
- `MathUtil.Clamp` and `ProgressBarComponent.Clamped` work on reals. NaN arguments are not modelled.
- `ProgressBarComponent.FillPercent`: the percentage is a real value. Formatting it with `${x}%` is not modelled.
- Concrete theme token values (the light and dark palettes, scales and shadows) are not modelled, because `./themes` is not part of this model. Every theme is a parameter.
- A caller's `style` is one flat style object, or none. Nested style arrays and registered style ids are not modelled.
- In Input, the `minHeight: undefined` of a single-line field sets no key. That field's other style entries set no `minHeight` either, so nothing is lost.
- `Switch` is not modelled: it is a pass-through to the host switch with no logic of its own.
- The `advanced` placeholders are not modelled: they only throw a missing-peer-dependency error.
- Style values are not type-checked against the host's style schema. `width`/`height` props are any `StyleValue`.
- `Styles.StyleKey` is a closed set of the style keys the components use. A caller style that sets any other key cannot be expressed. Such a key would not touch any key the components set, and it would pass through flattening unchanged.
- `InputComponent.Lines`: `numberOfLines` is modelled as an integer. A non-integral JavaScript number there is not modelled.
- `CollapsibleSection.Press`: each press negates the current `expanded` flag, so one re-render per press is assumed. In the source, `setExpanded(!expanded)` negates the value captured by the last render. Two presses handled before one re-render would both set the same value there, but the model flips twice. React's batching of state updates is not modelled.
- `InputComponent.Edit`: a read-only host text field delivers no edits. This is the host `TextInput`'s behaviour under `editable={false}`, taken as given.

## Findings

| source | as written | input that shows it | evidently intended | confidence | as-written member | corrected member |
|---|---|---|---|---|---|---|
| src/components/layouts/Collapsible.tsx:64 | The expanded indicator is the three characters U+00E2 U+02C6 U+2019. These are the UTF-8 bytes of the minus sign U+2212, read as Windows-1252. | `expanded = true` | the minus sign U+2212 | not executed; the file's text holds these three characters, but whether the published bundle does too depends on how it was encoded | `CollapsibleSection.IndicatorWritten` | `CollapsibleSection.Indicator` |
| src/components/inputs/CheckBox.tsx:45 | The checkmark is the three characters U+00E2 U+0153 U+201C. These are the UTF-8 bytes of the check mark U+2713, read as Windows-1252. | `value = true` | the check mark U+2713 | not executed; the file's text holds these three characters, but whether the published bundle does too depends on how it was encoded | `CheckBoxComponent.CheckmarkWritten` | `CheckBoxComponent.Checkmark` |
