# RAM primitive types

A Dafny model of the primitive-type tags of Souffle's relational abstract
machine (RAM). The header `src/RamPrimitiveTypes.h` declares the closed
enumeration `RamPrimitiveType` with four kinds: `String`, `Signed`,
`Unsigned` and `Float`. It has two conversions:

- `RamPrimitiveFromChar` decodes a one-character code. It accepts only
  `'s'`, `'i'`, `'f'` and `'u'`. Any other character fails an assertion.
- `operator<<` writes a kind's qualified label, such as
  `RamPrimitiveType::String`, to an output stream and returns that stream.

The model is one module, `RamPrimitiveTypes`, in `ram_primitive_types.dfy`:

- The enumeration is the datatype `RamPrimitiveType`.
- The decoder is the pure function `FromChar`. It returns an `Option`. The
  failing assertion becomes `None`, so no kind is ever made up for a bad code.
- The label is the pure function `Label`.
- The output stream is the class `OStream`. Its only state is the text
  written so far (`text`), and it is only ever appended to.
- The stream operator is the method `WriteType`. It appends the label to the
  stream and returns the same object.

Two ghost functions serve as reference definitions for the lemmas:

- `Code` gives each kind's canonical character, so it is the decoder's inverse.
- `EnumeratorName` gives the name each kind is declared under.

## Model

| member | source | states |
|---|---|---|
| `RamPrimitiveTypes.FromChar` | src/RamPrimitiveTypes.h:32-51 | A code is accepted exactly when it is one of `'s'`, `'i'`, `'f'`, `'u'`. Any other character, for example `'S'` or `'\0'`, gives `None` and no kind. An accepted code decodes to kind `t` exactly when it is `t`'s canonical code: `'s'`→String, `'i'`→Signed, `'f'`→Float, `'u'`→Unsigned. |
| `RamPrimitiveTypes.Code` | src/RamPrimitiveTypes.h:35-46 | Each kind's canonical code is one of the four accepted characters. This is the inverse that the decoder's contract is stated against. |
| `RamPrimitiveTypes.FromCharInjective` | src/RamPrimitiveTypes.h:35-46 | Two characters that decode to the same kind are the same character. |
| `RamPrimitiveTypes.FromCharExactlyOne` | src/RamPrimitiveTypes.h:24-29 | Every declared kind is produced by one character, and by no other (onto the enumeration, one code per kind). |
| `RamPrimitiveTypes.FromCharImage` | src/RamPrimitiveTypes.h:34-46 | There are four accepted codes and four kinds. The image of the accepted codes under decoding is the whole enumeration. |
| `RamPrimitiveTypes.Exhaustive` | src/RamPrimitiveTypes.h:24-29 | Every value of the type is one of the four listed kinds, and the list has no repeats. So no fifth kind exists. |
| `RamPrimitiveTypes.EnumeratorName` | src/RamPrimitiveTypes.h:25-28 | The reference table behind `Label`'s contract: each kind's identifier exactly as the enumeration declares it (`String`, `Signed`, `Unsigned`, `Float`). Its ensures only records that an identifier is not empty, which makes every label strictly longer than the shared qualifier. |
| `RamPrimitiveTypes.Label` | src/RamPrimitiveTypes.h:54-67 | The match covers every kind and has no default branch. Each label is the qualifier `RamPrimitiveType::` followed by the kind's declared name. So each label strictly extends the shared prefix and is longer than one character. |
| `RamPrimitiveTypes.LabelInjective` | src/RamPrimitiveTypes.h:55-66 | Different kinds render to different labels, so the four labels are pairwise distinct. |
| `RamPrimitiveTypes.LabelNotACode` | src/RamPrimitiveTypes.h:35-66 | No label is a one-character string. A label is therefore never a decoder input, and rendering followed by decoding is not a round trip. |
| `RamPrimitiveTypes.OStream.constructor` | src/RamPrimitiveTypes.h:53 | A new stream holds no text. |
| `RamPrimitiveTypes.OStream.Write` | src/RamPrimitiveTypes.h:56 | Writing a string literal appends exactly that string to the stream's text. |
| `RamPrimitiveTypes.WriteType` | src/RamPrimitiveTypes.h:53-69 | The operator returns the same stream object. The stream's new text is its old text followed by exactly `Label(t)`. The old text is a strict prefix of the new text and is left unchanged. |

## Left out

- The real `std::ostream` machinery is not modelled: formatting state, error bits, flushing and character encoding. The stream is only a growing string.
- The release build, in which `NDEBUG` removes the assertion, is not modelled. There, an invalid code returns an uninitialised value, which is undefined behaviour. The model yields `None` instead.
- The numeric meaning of the `Signed`, `Unsigned` and `Float` kinds is not modelled. The header does no arithmetic with them.
- The code that consumes these tags in the rest of the RAM and type-system layers is not part of this model.
- `operator<<` takes the kind by non-const reference but never changes it. `WriteType` takes it by value.
- FromChar: takes a Unicode character, while a C++ `char` is one byte whose signedness depends on the platform. Every byte other than the four codes is rejected either way, so the results agree on all byte values.
- Exhaustive: holds of the Dafny datatype, not of the C++ `enum class`. That type can hold any value of its underlying `int`, for example through `static_cast`. For such an out-of-range value the `switch` in `operator<<` has no matching case and writes nothing, and it still returns `os`. The model has no out-of-range values, so it does not capture this.
