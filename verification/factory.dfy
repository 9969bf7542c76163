/** `FileProcessorFactorySingleton::createFileProcessor`: a chain of string
    comparisons choosing one of four variants, or an empty pointer. */
module Factory {
  import opened Wrappers
  import opened Keys
  import opened Processors

  /** The closed set of processor kinds. */
  datatype Kind = EncodeKind | IdentityKind | CompressKind | EncryptKind

  const EncodeMode: string := "encode"
  const IdentityMode: string := "identity"
  const CompressMode: string := "compress"
  const EncryptMode: string := "encrypt"

  /** The Compressor parameters the factory supplies. */
  const DefaultParams: Params := Params("Hello", "World")

  /** The mode string that selects a kind. */
  function ModeName(k: Kind): string {
    match k
    case EncodeKind => EncodeMode
    case IdentityKind => IdentityMode
    case CompressKind => CompressMode
    case EncryptKind => EncryptMode
  }

  /** The comparisons, in the order the factory makes them. */
  function ParseMode(mode: string): (r: Option<Kind>)
    ensures r.Some? ==> ModeName(r.value) == mode
  {
    if mode == EncodeMode then Some(EncodeKind)
    else if mode == IdentityMode then Some(IdentityKind)
    else if mode == CompressMode then Some(CompressKind)
    else if mode == EncryptMode then Some(EncryptKind)
    else None
  }

  predicate IsMode(mode: string) {
    mode == EncodeMode || mode == IdentityMode || mode == CompressMode || mode == EncryptMode
  }

  /** Parsing inverts naming, and recognises exactly the four mode names. */
  lemma ParseModeName(k: Kind)
    ensures ParseMode(ModeName(k)) == Some(k)
  {
  }

  lemma ParseModeRecognises(mode: string)
    ensures ParseMode(mode).Some? <==> IsMode(mode)
  {
  }

  /** The kind of a constructed processor. */
  function KindOf(p: Processor): Kind {
    match p
    case Encoder => EncodeKind
    case Identity => IdentityKind
    case Compressor(_) => CompressKind
    case Encryptor(_) => EncryptKind
  }

  /** Construction of each variant; the Encryptor's constructor takes its
      key characters from the `rand()` outputs `draws`. */
  function Construct(k: Kind, draws: seq<nat>): (p: Processor)
    requires k == EncryptKind ==> |draws| >= KeyLength
    ensures KindOf(p) == k
    ensures p.Usable()
  {
    match k
    case EncodeKind => Encoder
    case IdentityKind => Identity
    case CompressKind => Compressor(DefaultParams)
    case EncryptKind => Encryptor(Present(GenerateKey(draws)))
  }

  /** `createFileProcessor(mode)`: `None` stands for the empty `unique_ptr`. */
  function CreateFileProcessor(mode: string, draws: seq<nat>): (r: Option<Processor>)
    requires mode == EncryptMode ==> |draws| >= KeyLength
    ensures r.Some? <==> IsMode(mode)
    ensures r.Some? ==> ModeName(KindOf(r.value)) == mode && r.value.Usable()
  {
    match ParseMode(mode)
    case None => None
    case Some(k) => Some(Construct(k, draws))
  }

  /** The mode-to-variant table: each recognised mode builds its own
      variant, the Compressor with ("Hello", "World") and the Encryptor
      with a freshly generated, present key. */
  lemma FactoryTable(mode: string, draws: seq<nat>)
    requires mode == EncryptMode ==> |draws| >= KeyLength
    ensures mode == EncodeMode ==> CreateFileProcessor(mode, draws) == Some(Encoder)
    ensures mode == IdentityMode ==> CreateFileProcessor(mode, draws) == Some(Identity)
    ensures mode == CompressMode ==>
              CreateFileProcessor(mode, draws) == Some(Compressor(Params("Hello", "World")))
    ensures mode == EncryptMode ==>
              CreateFileProcessor(mode, draws) == Some(Encryptor(Present(GenerateKey(draws))))
    ensures !IsMode(mode) ==> CreateFileProcessor(mode, draws) == None
  {
  }

  /** Round trip: the mode of a kind builds a processor of that kind. */
  lemma CreateOfModeName(k: Kind, draws: seq<nat>)
    requires |draws| >= KeyLength
    ensures var r := CreateFileProcessor(ModeName(k), draws);
            r.Some? && KindOf(r.value) == k
  {
    ParseModeName(k);
  }
}
