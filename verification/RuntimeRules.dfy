/** What override resolution accepts and what it answers, in the terms of a benchmark request. */
module RuntimeRules {
  import opened Common
  import opened Text
  import opened RuntimeResolve

  // ----- the overridable options ----------------------------------------------------------------

  // The order in which they are looked at.
  function PlaceOf(f: Field): (j: nat)
    ensures j < 14
  {
    match f
    case ContextSize => 0 case GPULayers => 1 case BatchSize => 2 case UBatchSize => 3 case Threads => 4
    case CacheTypeK => 5 case CacheTypeV => 6 case FlashAttention => 7 case KVOffload => 8 case SplitMode => 9
    case MainGPU => 10 case NCPUMoE => 11 case MMap => 12 case MLock => 13
  }

  // The name in a request and in the capabilities of the benchmark binary.
  function KeyOf(f: Field): string {
    match f
    case ContextSize => "context_size" case GPULayers => "gpu_layers"
    case BatchSize => "batch_size" case UBatchSize => "ubatch_size"
    case Threads => "threads" case FlashAttention => "flash_attention" case KVOffload => "kv_offload"
    case CacheTypeK => "cache_type_k" case CacheTypeV => "cache_type_v" case SplitMode => "split_mode"
    case MainGPU => "main_gpu" case NCPUMoE => "n_cpu_moe" case MMap => "mmap" case MLock => "mlock"
  }

  // The command-line option of the server.
  function OptionOf(f: Field): string {
    match f
    case ContextSize => "ctx-size" case GPULayers => "n-gpu-layers"
    case BatchSize => "batch-size" case UBatchSize => "ubatch-size"
    case Threads => "threads" case FlashAttention => "flash-attn" case KVOffload => "kv-offload"
    case CacheTypeK => "cache-type-k" case CacheTypeV => "cache-type-v" case SplitMode => "split-mode"
    case MainGPU => "main-gpu" case NCPUMoE => "n-cpu-moe" case MMap => "mmap" case MLock => "mlock"
  }

  predicate IsSwitch(f: Field) { f.FlashAttention? || f.KVOffload? || f.MMap? || f.MLock? }

  predicate IsChoice(f: Field) { f.CacheTypeK? || f.CacheTypeV? || f.SplitMode? }

  // The range of a number.
  predicate InBounds(f: Field, n: int) {
    if f.MainGPU? then 0 <= n <= 65_535
    else if f.Threads? then 1 <= n <= 65_536
    else if f.GPULayers? then -1 <= n <= 100_000
    else if f.NCPUMoE? then 0 <= n <= 100_000
    else 1 <= n <= 4_194_304
  }

  predicate HasType(f: Field, v: Value) {
    if IsSwitch(f) then v.BoolValue? else if IsChoice(f) then v.TextValue? else v.IntValue?
  }

  // Every value of a request has the type of its field.
  predicate IsTyped(requested: Overrides) { forall f :: f in requested.options ==> HasType(f, requested.options[f]) }

  // The resolution's table has every field at its place, with its names ...
  lemma {:induction false} SpecIs(f: Field)
    ensures |Specs| == 14
    ensures var spec := Specs[PlaceOf(f)]; spec.field == f && spec.key == KeyOf(f) && spec.option == OptionOf(f)
  {
  }

  lemma {:induction false} SpecAt(j: nat)
    requires j < |Specs|
    ensures PlaceOf(Specs[j].field) == j
  {
  }

  // ... and what it may be.
  lemma {:induction false} KindIs(f: Field)
    ensures var kind := Specs[PlaceOf(f)].kind;
      && (kind.BoolKind? <==> IsSwitch(f)) && (kind.TextKind? <==> IsChoice(f))
      && (kind.TextKind? ==> kind.fallback == if f.SplitMode? then ["none", "layer", "row"] else [])
      && (kind.IntKind? ==> forall n :: kind.minimum <= n <= kind.maximum <==> InBounds(f, n))
  {
  }

  lemma {:induction false} TypedIsTyped(requested: Overrides)
    requires IsTyped(requested)
    ensures WellTyped(requested)
  {
    hide Specs, PlaceOf, IsSwitch, IsChoice;
    forall j | 0 <= j < |Specs| && Specs[j].field in requested.options
      ensures Typed(Specs[j].kind, requested.options[Specs[j].field])
    {
      SpecAt(j);
      KindIs(Specs[j].field);
    }
  }

  // ----- what is accepted ---------------------------------------------------------------------------

  // The binary advertises this name.
  predicate Supported(caps: Capabilities, key: string) {
    exists i :: 0 <= i < |caps.runtimeOptions| && caps.runtimeOptions[i].key == key
  }

  // A letter, a digit, or one of + - . : _
  predicate PlainChar(c: char) {
    var n := c as int;
    65 <= n <= 90 || 97 <= n <= 122 || 48 <= n <= 57 || n == 43 || n == 45 || n == 46 || n == 58 || n == 95
  }

  predicate PlainText(text: string) { 1 <= |text| <= 64 && forall i :: 0 <= i < |text| ==> PlainChar(text[i]) }

  predicate OneOf(lib: Library, choices: seq<string>, text: string) {
    exists i :: 0 <= i < |choices| && lib.equalFold(TrimSpace(choices[i]), text)
  }

  predicate IsFirst(fields: seq<RuntimeOption>, i: nat, option: RuntimeOption)
    requires i < |fields|
  {
    fields[i] == option && forall k :: 0 <= k < i ==> fields[k].key != option.key
  }

  // The first option of this name is the one whose choices count.
  ghost predicate Offers(caps: Capabilities, key: string, choices: seq<string>) {
    exists i :: 0 <= i < |caps.runtimeOptions| && IsFirst(caps.runtimeOptions, i, RuntimeOption(key, choices))
  }

  // A text that the binary offers, or, where it offers none, that the manager knows.
  ghost predicate Offered(lib: Library, caps: Capabilities, f: Field, text: string) {
    exists choices :: Offers(caps, KeyOf(f), choices) &&
      if choices != [] then OneOf(lib, choices, text)
      else f.SplitMode? ==> OneOf(lib, ["none", "layer", "row"], text)
  }

  // What is wrong with a requested value, if anything is.
  ghost predicate Complains(lib: Library, caps: Capabilities, f: Field, v: Value, error: Error) {
    if !Supported(caps, KeyOf(f)) then error == Unsupported(KeyOf(f))
    else
      match v
      case IntValue(n) => !InBounds(f, n) && error == OutOfRange(KeyOf(f))
      case BoolValue(_) => false
      case TextValue(t) =>
        if !PlainText(TrimSpace(t)) then error == BadValue(KeyOf(f))
        else !Offered(lib, caps, f, TrimSpace(t)) && error == NotAdvertised(KeyOf(f))
  }

  ghost predicate Accepts(lib: Library, caps: Capabilities, f: Field, v: Value) {
    forall error :: !Complains(lib, caps, f, v, error)
  }

  lemma {:induction false} ChoicesAreOffered(caps: Capabilities, key: string)
    requires Supported(caps, key)
    ensures forall choices :: Offers(caps, key, choices) <==> choices == Choices(caps.runtimeOptions, key)
  {
    var i := FirstChoices(caps.runtimeOptions, key);
    forall choices | Offers(caps, key, choices)
      ensures choices == Choices(caps.runtimeOptions, key)
    {
      var j :| 0 <= j < |caps.runtimeOptions| && IsFirst(caps.runtimeOptions, j, RuntimeOption(key, choices));
      assert i == j;
    }
  }

  lemma {:induction false} FirstChoices(fields: seq<RuntimeOption>, key: string) returns (i: nat)
    requires exists k :: 0 <= k < |fields| && fields[k].key == key
    ensures i < |fields| && IsFirst(fields, i, RuntimeOption(key, Choices(fields, key)))
  {
    if fields[0].key == key {
      i := 0;
    } else {
      var k :| 0 <= k < |fields| && fields[k].key == key;
      assert fields[1..][k - 1].key == key;
      var j := FirstChoices(fields[1..], key);
      i := j + 1;
      forall k | 0 <= k < i
        ensures fields[k].key != key
      {
        assert k > 0 ==> fields[k] == fields[1..][k - 1];
      }
    }
  }

  lemma {:induction false} PlainIsSimple(text: string)
    ensures PlainText(text) <==> SimpleValue(text)
  {
    forall i | 0 <= i < |text|
      ensures PlainChar(text[i]) <==> SimpleChar(text[i])
    {
      SignsArePlain(text[i]);
    }
  }

  lemma {:induction false} SignsArePlain(c: char)
    ensures c in "_.:+-" <==> c as int == 43 || c as int == 45 || c as int == 46 || c as int == 58 || c as int == 95
  {
    assert "_.:+-"[0] == '_' && "_.:+-"[1] == '.' && "_.:+-"[2] == ':' && "_.:+-"[3] == '+' && "_.:+-"[4] == '-';
  }

  lemma {:induction false} OfferedIs(lib: Library, caps: Capabilities, f: Field, text: string)
    requires Supported(caps, KeyOf(f))
    ensures Offered(lib, caps, f, text) <==>
        var choices := Choices(caps.runtimeOptions, KeyOf(f));
        if choices != [] then OneOf(lib, choices, text) else f.SplitMode? ==> OneOf(lib, ["none", "layer", "row"], text)
  {
    ChoicesAreOffered(caps, KeyOf(f));
    hide Choices, Offers, OneOf;
    assert Offers(caps, KeyOf(f), Choices(caps.runtimeOptions, KeyOf(f)));
  }

  lemma {:induction false} TextComplains(lib: Library, caps: Capabilities, f: Field, spec: Spec, v: Value)
    requires spec.key == KeyOf(f) && IsChoice(f) && v.TextValue?
    requires spec.kind == TextKind(if f.SplitMode? then ["none", "layer", "row"] else [])
    ensures var error := Check(lib, caps, spec, v);
      && (error.Some? ==> Complains(lib, caps, f, v, error.value))
      && (error.None? ==> Accepts(lib, caps, f, v))
  {
    var text := TrimSpace(v.t);
    assert PlainText(text) ==> text != "";
    PlainIsSimple(text);
    hide KeyOf, TrimSpace, PlainText, SimpleValue, Choices, Offered;
    if Supported(caps, KeyOf(f)) {
      OfferedIs(lib, caps, f, text);
    }
  }

  // The check of a value is just that complaint.
  lemma {:induction false} CheckComplains(lib: Library, caps: Capabilities, f: Field, v: Value)
    requires HasType(f, v)
    ensures Typed(Specs[PlaceOf(f)].kind, v)
    ensures var error := Check(lib, caps, Specs[PlaceOf(f)], v);
      && (error.Some? ==> Complains(lib, caps, f, v, error.value))
      && (error.None? ==> Accepts(lib, caps, f, v))
  {
    SpecIs(f);
    KindIs(f);
    hide Specs, PlaceOf, KeyOf, TrimSpace, PlainText, SimpleValue, InBounds, Choices, Offered;
    if v.TextValue? {
      TextComplains(lib, caps, f, Specs[PlaceOf(f)], v);
    }
  }

  // ----- which complaint is answered --------------------------------------------------------------------

  ghost predicate AcceptedBefore(lib: Library, caps: Capabilities, requested: Overrides, n: nat) {
    forall f :: f in requested.options && PlaceOf(f) < n ==> Accepts(lib, caps, f, requested.options[f])
  }

  lemma {:induction false} AcceptedApply(lib: Library, caps: Capabilities, requested: Overrides, n: nat, m: Merge)
    requires n <= |Specs| && IsTyped(requested) && WellTyped(requested) && AcceptedBefore(lib, caps, requested, n)
    ensures ApplyOptions(lib, caps, requested, n, m).Go?
  {
    hide Specs, Check, Complains, Accepts, HasType, KeyOf, PlaceOf, Typed, Agrees;
    if n > 0 {
      AcceptedApply(lib, caps, requested, n - 1, m);
      SpecAt(n - 1);
      var f := Specs[n - 1].field;
      if f in requested.options {
        CheckComplains(lib, caps, f, requested.options[f]);
        NoComplaint(lib, caps, f, requested.options[f]);
      }
    }
  }

  lemma {:induction false} NoComplaint(lib: Library, caps: Capabilities, f: Field, v: Value)
    requires Accepts(lib, caps, f, v)
    ensures forall error :: !Complains(lib, caps, f, v, error)
  {
  }

  lemma {:induction false} ComplaintStops(lib: Library, caps: Capabilities, requested: Overrides, n: nat, m: Merge,
      f: Field, error: Error)
    requires PlaceOf(f) < n <= |Specs| && IsTyped(requested) && WellTyped(requested)
    requires AcceptedBefore(lib, caps, requested, PlaceOf(f))
    requires f in requested.options && Complains(lib, caps, f, requested.options[f], error)
    ensures ApplyOptions(lib, caps, requested, n, m) == Stop(error)
  {
    hide Specs, Check, Complains, Accepts, HasType, KeyOf, PlaceOf, Typed, Agrees;
    if n - 1 > PlaceOf(f) {
      ComplaintStops(lib, caps, requested, n - 1, m, f, error);
    } else {
      AcceptedApply(lib, caps, requested, n - 1, m);
      SpecIs(f);
      CheckComplains(lib, caps, f, requested.options[f]);
      NoComplaintIsAccepted(lib, caps, f, requested.options[f], error);
      OneComplaint(lib, caps, f, requested.options[f]);
    }
  }

  lemma {:induction false} NoComplaintIsAccepted(lib: Library, caps: Capabilities, f: Field, v: Value, error: Error)
    requires Complains(lib, caps, f, v, error)
    ensures !Accepts(lib, caps, f, v)
  {
  }

  lemma {:induction false} OneComplaint(lib: Library, caps: Capabilities, f: Field, v: Value)
    ensures forall a, b :: Complains(lib, caps, f, v, a) && Complains(lib, caps, f, v, b) ==> a == b
  {
    hide Supported, Offered, PlainText, InBounds;
  }

  // ----- devices and split ---------------------------------------------------------------------------------

  // Holds a slash, a comma, a semicolon, a blank, a tab, a line break or a NUL.
  predicate Unfit(device: string) {
    exists i :: 0 <= i < |device| &&
      var n := device[i] as int; n == 47 || n == 44 || n == 59 || n == 32 || n == 9 || n == 10 || n == 13 || n == 0
  }

  ghost predicate HasDevice(caps: Capabilities, device: string) {
    exists choices :: Offers(caps, "gpu_devices", choices) && device in choices
  }

  ghost predicate FitDevice(caps: Capabilities, device: string) { !Unfit(device) && HasDevice(caps, device) }

  // The first device that does not do decides.
  ghost predicate DevicesComplain(caps: Capabilities, devices: seq<string>, error: Error) {
    exists i :: 0 <= i < |devices| && !FitDevice(caps, devices[i])
      && (forall k :: 0 <= k < i ==> FitDevice(caps, devices[k]))
      && error == if Unfit(devices[i]) then BadDevice else UnknownDevice
  }

  ghost predicate DevicesAccepted(caps: Capabilities, requested: Overrides) {
    requested.gpuDevices.Some? ==>
      && Supported(caps, "gpu_devices")
      && forall d :: d in NormalizedDevices(requested.gpuDevices.value) ==> FitDevice(caps, d)
  }

  lemma {:induction false} UnfitIsBad(device: string)
    ensures Unfit(device) <==> exists i :: 0 <= i < |device| && BadDeviceChar(device[i])
  {
    forall i | 0 <= i < |device|
      ensures BadDeviceChar(device[i]) <==>
        var n := device[i] as int; n == 47 || n == 44 || n == 59 || n == 32 || n == 9 || n == 10 || n == 13 || n == 0
    {
      assert "/,; "[0] == '/' && "/,; "[1] == ',' && "/,; "[2] == ';' && "/,; "[3] == ' ';
    }
  }

  lemma {:induction false} HasDeviceIs(caps: Capabilities, device: string)
    requires Supported(caps, "gpu_devices")
    ensures HasDevice(caps, device) <==> device in Choices(caps.runtimeOptions, "gpu_devices")
  {
    ChoicesAreOffered(caps, "gpu_devices");
    hide Choices, Offers;
    assert Offers(caps, "gpu_devices", Choices(caps.runtimeOptions, "gpu_devices"));
  }

  lemma {:induction false} DeviceErrorIs(caps: Capabilities, devices: seq<string>)
    requires Supported(caps, "gpu_devices")
    ensures var error := DeviceError(devices, Choices(caps.runtimeOptions, "gpu_devices"));
      && (error.Some? ==> DevicesComplain(caps, devices, error.value))
      && (error.None? <==> forall d :: d in devices ==> FitDevice(caps, d))
  {
    hide Supported, HasDevice, Unfit, Choices;
    if devices != [] {
      var shorter, last := devices[..|devices| - 1], devices[|devices| - 1];
      DeviceErrorIs(caps, shorter);
      UnfitIsBad(last);
      HasDeviceIs(caps, last);
      assert devices == shorter + [last];
      if exists d :: d in shorter && !FitDevice(caps, d) {
        var error := DeviceError(shorter, Choices(caps.runtimeOptions, "gpu_devices")).value;
        LongerComplains(caps, shorter, last, error);
      }
    }
  }

  lemma {:induction false} LongerComplains(caps: Capabilities, devices: seq<string>, last: string, error: Error)
    requires DevicesComplain(caps, devices, error)
    ensures DevicesComplain(caps, devices + [last], error)
  {
    hide FitDevice, Unfit;
    var i :| 0 <= i < |devices| && !FitDevice(caps, devices[i])
      && (forall k :: 0 <= k < i ==> FitDevice(caps, devices[k]))
      && error == if Unfit(devices[i]) then BadDevice else UnknownDevice;
    assert (devices + [last])[i] == devices[i];
  }

  // The weights of a split: trimmed, between commas.
  ghost predicate IsSplit(lib: Library, raw: string, value: string) {
    if TrimSpace(raw) == "" then value == ""
    else exists parts: seq<string> :: WeightsOf(lib, raw, parts) && value == Join(TrimParts(parts), ",")
  }

  ghost predicate WeightsOf(lib: Library, raw: string, parts: seq<string>) {
    && |parts| > 0 && Join(parts, ",") == TrimSpace(raw)
    && forall i :: 0 <= i < |parts| ==> ',' !in parts[i] && lib.isWeight(TrimSpace(parts[i]))
  }

  ghost predicate SplitAccepted(lib: Library, caps: Capabilities, requested: Overrides) {
    requested.tensorSplit.Some? ==>
      Supported(caps, "tensor_split") && exists value :: IsSplit(lib, requested.tensorSplit.value, value)
  }

  lemma {:induction false} SplitIs(lib: Library, raw: string)
    ensures var value := NormalizeTensorSplit(lib, raw);
      && (value.Some? ==> IsSplit(lib, raw, value.value))
      && forall other :: IsSplit(lib, raw, other) ==> value == Some(other)
  {
    hide TrimSpace, Split, Join;
    var text := TrimSpace(raw);
    if text != "" {
      JoinSplit(text, ',');
      assert [','] == ",";
      var parts := Split(text, ',');
      assert forall i :: 0 <= i < |parts| ==> TrimParts(parts)[i] == TrimSpace(parts[i]);
      if NormalizeTensorSplit(lib, raw).Some? {
        assert WeightsOf(lib, raw, parts);
      }
      forall other | IsSplit(lib, raw, other)
        ensures NormalizeTensorSplit(lib, raw) == Some(other)
      {
        var others: seq<string> :| WeightsOf(lib, raw, others) && other == Join(TrimParts(others), ",");
        SplitJoin(others, ',');
        assert others == parts;
      }
    }
  }

  // ----- what is answered ------------------------------------------------------------------------------------

  ghost predicate Accepted(lib: Library, caps: Capabilities, requested: Overrides) {
    && (forall f :: f in requested.options ==> Accepts(lib, caps, f, requested.options[f]))
    && DevicesAccepted(caps, requested) && SplitAccepted(lib, caps, requested)
  }

  // Where the instance's model would go, and how it would be split.
  datatype Placement = Placement(mode: string, devices: seq<string>, split: string)

  // A list that differs decides the mode; a split that differs is taken; back in automatic mode it is given back.
  ghost predicate IsPlacement(lib: Library, instance: Config, requested: Overrides, p: Placement) {
    var own := NormalizedDevices(instance.gpuDevices);
    && (if requested.gpuDevices.Some? && NormalizedDevices(requested.gpuDevices.value) != own then
          && p.devices == NormalizedDevices(requested.gpuDevices.value)
          && p.mode == if p.devices == [] then "auto" else "manual"
        else
          p.devices == instance.gpuDevices && p.mode == instance.gpuMode)
    && (if requested.tensorSplit.Some?
        then
          exists value :: IsSplit(lib, requested.tensorSplit.value, value)
            && p.split == if value == TrimSpace(instance.tensorSplit) then instance.tensorSplit else value
        else if requested.gpuDevices.Some? && p.devices == [] && p.mode == "auto" then p.split == ""
        else p.split == instance.tensorSplit)
  }

  // How many weights a split has.
  ghost predicate HasWeights(split: string, n: nat) {
    exists parts: seq<string> :: |parts| == n && Join(parts, ",") == split && n > 0
      && forall i :: 0 <= i < n ==> ',' !in parts[i]
  }

  // A split needs a manual placement, which needs devices, and has one weight for each.
  ghost predicate PlacementComplains(p: Placement, error: Error) {
    if p.mode == "auto" && TrimSpace(p.split) != "" then error.SplitNeedsDevices?
    else if p.mode == "manual" && p.devices == [] then error.ManualNeedsDevices?
    else p.split != "" && p.devices != [] && !HasWeights(p.split, |p.devices|) && error.SplitCount?
  }

  lemma {:induction false} WeightsAre(split: string, n: nat)
    ensures HasWeights(split, n) <==> |Split(split, ',')| == n
  {
    assert [','] == ",";
    JoinSplit(split, ',');
    if HasWeights(split, n) {
      var parts: seq<string> :| |parts| == n && Join(parts, ",") == split && n > 0
        && forall i :: 0 <= i < n ==> ',' !in parts[i];
      SplitJoin(parts, ',');
    }
  }

  /** Without a benchmark binary that can run, nothing is resolved. */
  lemma {:induction false} UnavailableIsAnswered(lib: Library, instance: Config, requested: Overrides,
      caps: Capabilities)
    requires IsTyped(requested) && !caps.available
    ensures WellTyped(requested) && Resolve(lib, instance, requested, caps) == Err(Unavailable(caps.reason))
  {
    TypedIsTyped(requested);
  }

  /** The first option, in their order, that is not supported or has a value that does not do, is what is
      complained about. */
  lemma {:induction false} OptionComplaintIsAnswered(lib: Library, instance: Config, requested: Overrides,
      caps: Capabilities, f: Field, error: Error)
    requires IsTyped(requested) && caps.available && f in requested.options
    requires forall g ::
      g in requested.options && PlaceOf(g) < PlaceOf(f) ==> Accepts(lib, caps, g, requested.options[g])
    requires Complains(lib, caps, f, requested.options[f], error)
    ensures WellTyped(requested) && Resolve(lib, instance, requested, caps) == Err(error)
  {
    TypedIsTyped(requested);
    SpecIs(f);
    ComplaintStops(lib, caps, requested, 14, Merge(instance, NoOverrides), f, error);
    hide ApplyOptions, Specs, Complains, Accepts, PlaceOf, IsTyped, WellTyped;
  }

  lemma {:induction false} OptionsPass(lib: Library, instance: Config, requested: Overrides, caps: Capabilities)
      returns (options: Merge)
    requires IsTyped(requested) && WellTyped(requested)
    requires forall f :: f in requested.options ==> Accepts(lib, caps, f, requested.options[f])
    ensures ApplyOptions(lib, caps, requested, |Specs|, Merge(instance, NoOverrides)) == Go(options)
    ensures options.config == instance.(options := options.config.options, sources := options.config.sources)
    ensures options.overrides == NoOverrides.(options := options.overrides.options)
  {
    hide Accepts, Specs, PlaceOf;
    AcceptedApply(lib, caps, requested, |Specs|, Merge(instance, NoOverrides));
    options := ApplyOptions(lib, caps, requested, |Specs|, Merge(instance, NoOverrides)).merge;
    OptionsAreApplied(lib, caps, instance, requested, |Specs|, options);
  }

  /** If the options do, the first device that does not is complained about. */
  lemma {:induction false} DeviceComplaintIsAnswered(lib: Library, instance: Config, requested: Overrides,
      caps: Capabilities, error: Error)
    requires IsTyped(requested) && caps.available && requested.gpuDevices.Some?
    requires forall f :: f in requested.options ==> Accepts(lib, caps, f, requested.options[f])
    requires if !Supported(caps, "gpu_devices") then error == Unsupported("gpu_devices")
      else DevicesComplain(caps, NormalizedDevices(requested.gpuDevices.value), error)
    ensures WellTyped(requested) && Resolve(lib, instance, requested, caps) == Err(error)
  {
    TypedIsTyped(requested);
    hide Specs, Accepts, ApplyOptions, WellTyped, IsTyped, NormalizedDevices, DeviceError, Choices;
    var options := OptionsPass(lib, instance, requested, caps);
    if Supported(caps, "gpu_devices") {
      var devices := NormalizedDevices(requested.gpuDevices.value);
      DeviceErrorIs(caps, devices);
      OneDeviceComplaint(caps, devices);
    }
  }

  lemma {:induction false} OneDeviceComplaint(caps: Capabilities, devices: seq<string>)
    ensures forall a, b :: DevicesComplain(caps, devices, a) && DevicesComplain(caps, devices, b) ==> a == b
    ensures (exists a :: DevicesComplain(caps, devices, a)) ==> exists d :: d in devices && !FitDevice(caps, d)
  {
    hide FitDevice, Unfit;
  }

  /** If options and devices do, a split that is not a list of weights is complained about. */
  lemma {:induction false} SplitComplaintIsAnswered(lib: Library, instance: Config, requested: Overrides,
      caps: Capabilities)
    requires IsTyped(requested) && caps.available && requested.tensorSplit.Some?
    requires forall f :: f in requested.options ==> Accepts(lib, caps, f, requested.options[f])
    requires DevicesAccepted(caps, requested) && !SplitAccepted(lib, caps, requested)
    ensures WellTyped(requested)
    ensures Resolve(lib, instance, requested, caps) ==
            Err(if !Supported(caps, "tensor_split") then Unsupported("tensor_split") else BadWeights)
  {
    TypedIsTyped(requested);
    hide Specs, Accepts, ApplyOptions, WellTyped, IsTyped, NormalizedDevices, DeviceError, Choices;
    hide NormalizeTensorSplit, IsSplit, FitDevice;
    var options := OptionsPass(lib, instance, requested, caps);
    if requested.gpuDevices.Some? {
      DeviceErrorIs(caps, NormalizedDevices(requested.gpuDevices.value));
    }
    SplitIs(lib, requested.tensorSplit.value);
  }

  /** If everything requested does, the placement it leads to decides: it is complained about, or the resolution
      succeeds with it. */
  lemma {:induction false} PlacementDecides(lib: Library, instance: Config, requested: Overrides, caps: Capabilities)
      returns (p: Placement)
    requires IsTyped(requested) && caps.available && Accepted(lib, caps, requested)
    ensures WellTyped(requested) && IsPlacement(lib, instance, requested, p)
    ensures var r := Resolve(lib, instance, requested, caps);
      && (r.Ok? ==> p == Placement(r.config.gpuMode, r.config.gpuDevices, r.config.tensorSplit))
      && (r.Ok? <==> forall error :: !PlacementComplains(p, error))
      && (r.Err? ==> PlacementComplains(p, r.error))
  {
    TypedIsTyped(requested);
    hide Specs, Accepts, ApplyOptions, WellTyped, IsTyped, NormalizedDevices, DeviceError, Choices;
    hide NormalizeTensorSplit, IsSplit, FitDevice, TrimSpace, Split, HasWeights;
    var options := OptionsPass(lib, instance, requested, caps);
    if requested.gpuDevices.Some? {
      DeviceErrorIs(caps, NormalizedDevices(requested.gpuDevices.value));
    }
    if requested.tensorSplit.Some? {
      SplitIs(lib, requested.tensorSplit.value);
    }
    var devices := ApplyDevices(caps, requested, instance, options).merge;
    var all := ApplyTensorSplit(lib, caps, requested, instance, devices).merge;
    assert Resolve(lib, instance, requested, caps) == Conclude(requested, all);
    hide Resolve;
    p := PlacedBy(lib, instance, requested, caps, options, devices, all);
    hide ApplyDevices, ApplyTensorSplit;
    ConcludeDecides(requested, all, p);
  }

  lemma {:induction false} PlacedBy(lib: Library, instance: Config, requested: Overrides, caps: Capabilities,
      options: Merge, devices: Merge, all: Merge) returns (p: Placement)
    requires options.config == instance.(options := options.config.options, sources := options.config.sources)
    requires ApplyDevices(caps, requested, instance, options) == Go(devices)
    requires ApplyTensorSplit(lib, caps, requested, instance, devices) == Go(all)
    ensures p == Placement(all.config.gpuMode, all.config.gpuDevices,
                           if ClearsSplit(requested, all.config) then "" else all.config.tensorSplit)
    ensures IsPlacement(lib, instance, requested, p)
  {
    hide NormalizedDevices, DeviceError, Choices, HasField, NormalizeTensorSplit, IsSplit, TrimSpace;
    if requested.tensorSplit.Some? {
      SplitIs(lib, requested.tensorSplit.value);
    }
    p := Placement(all.config.gpuMode, all.config.gpuDevices,
                   if ClearsSplit(requested, all.config) then "" else all.config.tensorSplit);
  }

  lemma {:induction false} ConcludeDecides(requested: Overrides, m: Merge, p: Placement)
    requires p == Placement(m.config.gpuMode, m.config.gpuDevices,
                            if ClearsSplit(requested, m.config) then "" else m.config.tensorSplit)
    ensures var r := Conclude(requested, m);
      && (r.Ok? ==> p == Placement(r.config.gpuMode, r.config.gpuDevices, r.config.tensorSplit))
      && (r.Ok? <==> forall error :: !PlacementComplains(p, error))
      && (r.Err? ==> PlacementComplains(p, r.error))
  {
    WeightsAre(p.split, |p.devices|);
    hide TrimSpace, Split, HasWeights, ClearsSplit;
    assert PlacementComplains(p, SplitNeedsDevices) || PlacementComplains(p, ManualNeedsDevices)
        || PlacementComplains(p, SplitCount) || forall error :: !PlacementComplains(p, error);
  }

  // ----- what a resolution reports ------------------------------------------------------------------------------

  // The same word in upper or lower case.
  predicate IsWord(text: string, word: string) {
    && |text| == |word|
    && forall i :: 0 <= i < |word| ==>
         text[i] == word[i] || ('a' <= word[i] <= 'z' && text[i] as int == word[i] as int - 32)
  }

  predicate IsOn(text: string) {
    IsWord(text, "true") || IsWord(text, "1") || IsWord(text, "yes") || IsWord(text, "on")
  }

  predicate IsOff(text: string) {
    IsWord(text, "false") || IsWord(text, "0") || IsWord(text, "no") || IsWord(text, "off")
  }

  function Setting(settings: map<string, string>, option: string): string {
    if option in settings then settings[option] else ""
  }

  // The instance has this value already.
  predicate HasAlready(setting: string, v: Value) {
    match v
    case IntValue(n) => TrimSpace(setting) == FormatInt(n)
    case BoolValue(b) => if b then IsOn(TrimSpace(setting)) else IsOff(TrimSpace(setting))
    case TextValue(t) => TrimSpace(setting) == TrimSpace(t)
  }

  function SettingOf(v: Value): string {
    match v
    case IntValue(n) => FormatInt(n)
    case BoolValue(b) => if b then "true" else "false"
    case TextValue(t) => TrimSpace(t)
  }

  // No reported override sets this option.
  ghost predicate IsFree(o: Overrides, option: string) { forall f :: f in o.options ==> OptionOf(f) != option }

  predicate IsKept(before: map<string, string>, after: map<string, string>, option: string) {
    (option in after <==> option in before) && (option in after ==> after[option] == before[option])
  }

  // An option is reported exactly when it was requested and is not set so already, and is then in force; all other
  // settings and sources are the instance's.
  ghost predicate OptionsTold(instance: Config, requested: Overrides, o: Overrides, c: Config) {
    && (forall f :: f in o.options <==>
          f in requested.options && !HasAlready(Setting(instance.options, OptionOf(f)), requested.options[f]))
    && (forall f :: f in o.options ==>
          && o.options[f] == (var v := requested.options[f]; if v.TextValue? then TextValue(TrimSpace(v.t)) else v)
          && Setting(c.options, OptionOf(f)) == SettingOf(requested.options[f])
          && Setting(c.sources, OptionOf(f)) == "benchmark")
    && (forall k :: IsFree(o, k) ==> IsKept(instance.options, c.options, k) && IsKept(instance.sources, c.sources, k))
  }

  lemma {:induction false} WordIsLower(text: string, word: string)
    requires forall i :: 0 <= i < |word| ==> 'a' <= word[i] <= 'z' || '0' <= word[i] <= '9'
    ensures IsWord(text, word) <==> Lower(text) == word
  {
    if Lower(text) == word {
      forall i | 0 <= i < |word|
        ensures text[i] == word[i] || ('a' <= word[i] <= 'z' && text[i] as int == word[i] as int - 32)
      {
        assert Lower(text)[i] == LowerChar(text[i]);
      }
    }
    if IsWord(text, word) {
      forall i | 0 <= i < |word|
        ensures Lower(text)[i] == word[i]
      {
      }
    }
  }

  lemma {:induction false} AlreadyAgrees(setting: string, v: Value)
    ensures HasAlready(setting, v) <==> Agrees(setting, v)
  {
    hide IsOn, IsOff, SameBoolValue, TrimSpace, FormatInt;
    match v
    case IntValue(n) => FormattedIsTrimmed(n);
    case TextValue(t) => TrimIsIdempotent(t);
    case BoolValue(b) => SwitchAgrees(setting, b);
  }

  lemma {:induction false} SwitchAgrees(setting: string, b: bool)
    ensures SameBoolValue(setting, b) <==> if b then IsOn(TrimSpace(setting)) else IsOff(TrimSpace(setting))
  {
    var text := TrimSpace(setting);
    WordIsLower(text, "true");
    WordIsLower(text, "1");
    WordIsLower(text, "yes");
    WordIsLower(text, "on");
    WordIsLower(text, "false");
    WordIsLower(text, "0");
    WordIsLower(text, "no");
    WordIsLower(text, "off");
    hide TrimSpace, IsWord;
    assert text == "" <==> Lower(text) == "";
    hide Lower;
  }

  lemma {:induction false} FormattedIsTrimmed(n: int)
    ensures TrimSpace(FormatInt(n)) == FormatInt(n)
  {
    var text := FormatInt(n);
    var digits := Digits(if n < 0 then -n else n);
    DigitsRoundTrip(if n < 0 then -n else n);
    assert IsDigit(digits[0]) && IsDigit(digits[|digits| - 1]);
    NothingToTrim(text);
    hide Digits, TrimSpace;
  }

  /** What a successful resolution reports of the options, field by field. */
  lemma {:induction false} ResolutionTells(lib: Library, instance: Config, requested: Overrides, caps: Capabilities)
    requires IsTyped(requested) && WellTyped(requested) && Resolve(lib, instance, requested, caps).Ok?
    ensures var Ok(o, c) := Resolve(lib, instance, requested, caps); OptionsTold(instance, requested, o, c)
  {
    var Ok(o, c) := Resolve(lib, instance, requested, caps);
    ReportIsExact(lib, instance, requested, caps);
    hide Resolve, PlacementReported, Consistent, Specs, WellTyped, IsTyped;
    TableTells(instance, requested, o, c);
  }

  lemma {:induction false} TableTells(instance: Config, requested: Overrides, o: Overrides, c: Config)
    requires OptionsReported(instance, requested, o, c)
    ensures OptionsTold(instance, requested, o, c)
  {
    hide Specs, PlaceOf, KeyOf, OptionOf, Agrees, HasAlready, TrimSpace, FormatInt;
    forall f: Field
      ensures f in o.options <==>
        f in requested.options && !HasAlready(Setting(instance.options, OptionOf(f)), requested.options[f])
      ensures f in o.options ==>
          && f in requested.options
          && o.options[f] == (var v := requested.options[f]; if v.TextValue? then TextValue(TrimSpace(v.t)) else v)
          && Setting(c.options, OptionOf(f)) == SettingOf(requested.options[f])
          && Setting(c.sources, OptionOf(f)) == "benchmark"
    {
      SpecIs(f);
      assert Requested(o, PlaceOf(f)) <==> Changes(instance, requested, PlaceOf(f));
      if f in requested.options {
        AlreadyAgrees(Setting(instance.options, OptionOf(f)), requested.options[f]);
      }
    }
    forall k | IsFree(o, k)
      ensures IsKept(instance.options, c.options, k) && IsKept(instance.sources, c.sources, k)
    {
      forall j | 0 <= j < |Specs| && Requested(o, j)
        ensures Specs[j].option != k
      {
        SpecIs(Specs[j].field);
        SpecAt(j);
      }
      assert Untouched(o, k);
    }
    hide OptionsReported, Untouched;
  }
}
