# JCodeGen core, modelled in Dafny

JCodeGen builds Java source text from an in-memory description of a class.
A class has a package, an access specifier, a name and an optional superclass.
Fields, constructors and methods are added to it one by one.
Each addition records the types the member mentions as imports.
`toString` then renders the class as a compilation unit:
the package line, the sorted import lines, the class header, and the indented member groups.

The model follows the Java classes one module each:

- `JavaLang` states the parts of the Java platform the code relies on.
  These are `String.replace`, `Collectors.joining`, `String.split` on a one-character pattern, and `int` hashing.
- `Sorting` holds the order of `String.compareTo` and `Stream.sorted()`, plus the unspecified iteration order of a `HashSet`.
- `Indentation` is `util/StringUtil`: the prefix table, `getPrefix` and `indent`.
- `Access` is `AccessSpecifier`.
- `CTypes` is `CType`. It holds the type value, the `of` cache (the class `TypeRegistry`), and the two array-walking loops.
- `Parameters` holds `CParameter`, `CParamList` and its builder.
- `ImmutableLists` holds `CImmutableList` and its builder.
- `Annotations` holds `CAnnotationArgument` and `CAnnotation`.
- `Members` holds `CField`, `CConstructor` and `CMethod`.
- `Classes` is `CClass`. It is a class whose methods update its import set and member lists in place.

A Java class whose fields never change after construction is a Dafny datatype.
This covers `CType`, `CParameter`, `AccessSpecifier`, `CField`, `CConstructor`, `CMethod`, `CAnnotation` and `CAnnotationArgument`.
Only `CType`, `CParameter` and `CAnnotationArgument` define `equals` over all their fields, which is what datatype equality is.
`CConstructor` and `CAnnotation` define `equals` over one field; `ConstructorEquals` and `AnnotationEquals` model those comparisons.
`AccessSpecifier`, `CField` and `CMethod` define no `equals`, so Java compares them by identity.
Datatype equality for these five classes is a modelling choice, and nothing in the modelled code compares them.
The list wrappers and the class under construction are Dafny classes, so they keep their identity.

## Model

| member | source | states |
|---|---|---|
| JavaLang.Replace | src/main/java/com/falsepattern/jcodegen/CType.java:51 | `replace('$', '.')` keeps the length, changes exactly the `$` characters, and leaves none behind |
| JavaLang.ReplaceAbsent | src/main/java/com/falsepattern/jcodegen/CType.java:51 | replacing a character that does not occur returns the text unchanged |
| JavaLang.JoinAppend | src/main/java/com/falsepattern/jcodegen/CClass.java:88-90 | joining two non-empty runs puts exactly one separator between their joined texts |
| JavaLang.JoinEmptyIff | src/main/java/com/falsepattern/jcodegen/CClass.java:108-112 | a join of non-empty parts is empty exactly when there are no parts |
| JavaLang.DropTrailingEmpty | src/main/java/com/falsepattern/jcodegen/util/StringUtil.java:30 | `split` keeps a prefix of the pieces; what it drops is empty, and what it keeps does not end in an empty string |
| JavaLang.PiecesFree | src/main/java/com/falsepattern/jcodegen/util/StringUtil.java:30 | no piece cut at the delimiters contains a delimiter |
| JavaLang.PiecesAround | src/main/java/com/falsepattern/jcodegen/util/StringUtil.java:30 | a delimiter between two texts splits their pieces apart |
| JavaLang.PiecesJoin | src/main/java/com/falsepattern/jcodegen/util/StringUtil.java:30 | joining the pieces with the one delimiter gives back the original text |
| JavaLang.SplitFree | src/main/java/com/falsepattern/jcodegen/util/StringUtil.java:30 | no string that `split` returns contains a delimiter |
| JavaLang.SplitEmptyIff | src/main/java/com/falsepattern/jcodegen/CType.java:91-93 | `split` returns no strings exactly when the text is non-empty and made only of delimiters, which is when `split[length - 1]` throws |
| JavaLang.SplitLast | src/main/java/com/falsepattern/jcodegen/CType.java:91-93 | text ending in a non-empty undelimited segment after a delimiter splits into a sequence whose last string is that segment |
| JavaLang.ToInt32 | src/main/java/com/falsepattern/jcodegen/CType.java:167-170 | Java `int` wrap-around: the result is in the 32-bit range, congruent to the input modulo 2^32, and equal to an input already in range |
| JavaLang.StringHash | src/main/java/com/falsepattern/jcodegen/CType.java:169 | `String.hashCode` is a Java `int` |
| JavaLang.ObjectsHash | src/main/java/com/falsepattern/jcodegen/CType.java:169 | `Objects.hash` of the values' hashes is a Java `int` |
| Sorting.LexReflexive | src/main/java/com/falsepattern/jcodegen/CClass.java:102 | `compareTo` order: every string is at most itself |
| Sorting.LexTotal | src/main/java/com/falsepattern/jcodegen/CClass.java:102 | `compareTo` order: any two strings are comparable |
| Sorting.LexAntisymmetric | src/main/java/com/falsepattern/jcodegen/CClass.java:102 | `compareTo` order: strings at most each other are equal |
| Sorting.LexTransitive | src/main/java/com/falsepattern/jcodegen/CClass.java:102 | `compareTo` order is transitive |
| Sorting.InsertPermutes | src/main/java/com/falsepattern/jcodegen/CClass.java:102 | inserting adds exactly the one string |
| Sorting.InsertSorted | src/main/java/com/falsepattern/jcodegen/CClass.java:102 | inserting into an ascending sequence keeps it ascending |
| Sorting.SortCorrect | src/main/java/com/falsepattern/jcodegen/CClass.java:102 | `sorted()` returns an ascending permutation of its input |
| Sorting.SortedUnique | src/main/java/com/falsepattern/jcodegen/CClass.java:102 | two ascending sequences with the same elements are equal |
| Sorting.SortIgnoresOrder | src/main/java/com/falsepattern/jcodegen/CClass.java:102 | `sorted()` of any rearrangement of the input gives the same result |
| Sorting.Enumerate | src/main/java/com/falsepattern/jcodegen/CClass.java:46 | a `HashSet` is visited in some order that lists each member exactly once |
| Sorting.EnumerationsPermute | src/main/java/com/falsepattern/jcodegen/CClass.java:102 | any two visiting orders of one set are permutations of each other |
| Sorting.DistinctCount | src/main/java/com/falsepattern/jcodegen/CClass.java:102 | in a sequence without repeats, each element occurs once |
| Sorting.Map | src/main/java/com/falsepattern/jcodegen/CClass.java:102 | `map(f)` keeps the length and applies `f` at each position |
| Sorting.MapAppend | src/main/java/com/falsepattern/jcodegen/CClass.java:102 | mapping distributes over concatenation |
| Sorting.MapPermutes | src/main/java/com/falsepattern/jcodegen/CClass.java:102 | mapping two permutations of each other gives permutations of each other |
| Indentation.Spaces | src/main/java/com/falsepattern/jcodegen/util/StringUtil.java:6-14 | the `n`th prefix is exactly `n` spaces |
| Indentation.SpacesAdd | src/main/java/com/falsepattern/jcodegen/util/StringUtil.java:19-25 | a prefix of `a` spaces followed by one of `b` spaces is the prefix of `a + b` spaces, which is what `getPrefix` relies on when it glues 16-space blocks |
| Indentation.IndentedSingleLine | src/main/java/com/falsepattern/jcodegen/util/StringUtil.java:28-38 | `indent` of a text without line terminators is the prefix, the text and one newline |
| Indentation.IndentedEmpty | src/main/java/com/falsepattern/jcodegen/util/StringUtil.java:28-38 | `indent("", 4)` is four spaces and a newline |
| Indentation.CarriageReturnNewline | src/main/java/com/falsepattern/jcodegen/util/StringUtil.java:30 | the pattern `\r\|\r\n\|\n` tries `\r` first, so `"a\r\nb"` has the three lines `a`, an empty line, and `b` |
| Indentation.PrefixLinesChars | src/main/java/com/falsepattern/jcodegen/util/StringUtil.java:32-36 | the loop adds only spaces and newlines to the lines' own characters |
| Indentation.IndentedHasNoCarriageReturn | src/main/java/com/falsepattern/jcodegen/util/StringUtil.java:28-38 | `indent` never emits a carriage return |
| Indentation.PrefixLinesShape | src/main/java/com/falsepattern/jcodegen/util/StringUtil.java:32-36 | every line the loop builds starts with the prefix, and the output is empty or ends with a newline |
| Indentation.IndentedLinesArePrefixed | src/main/java/com/falsepattern/jcodegen/util/StringUtil.java:28-38 | every output line of `indent(s, n)` begins with `n` spaces, and the output is empty or ends with a newline |
| Indentation.StringUtil.constructor | src/main/java/com/falsepattern/jcodegen/util/StringUtil.java:6-14 | the static initialiser fills the 17-entry table so that entry `i` is `i` spaces |
| Indentation.StringUtil.GetPrefix | src/main/java/com/falsepattern/jcodegen/util/StringUtil.java:15-27 | `getPrefix(n)` returns exactly `n` spaces, from the table or from 16-space blocks plus a table entry |
| Indentation.StringUtil.Indent | src/main/java/com/falsepattern/jcodegen/util/StringUtil.java:28-38 | the loop returns every split line behind the prefix and before a newline, as `Indented` states |
| Access.ToString | src/main/java/com/falsepattern/jcodegen/AccessSpecifier.java:44-47 | the rendering is empty exactly for package visibility; otherwise it starts with the visibility keyword and a space, and it ends with a space |
| Access.FlagsInjective | src/main/java/com/falsepattern/jcodegen/AccessSpecifier.java:46 | the `static `/`final ` suffix determines both flags |
| Access.DefaultRendering | src/main/java/com/falsepattern/jcodegen/AccessSpecifier.java:37-47 | the builder's default renders as `private ` |
| Access.ToStringInjective | src/main/java/com/falsepattern/jcodegen/AccessSpecifier.java:44-47 | two specifiers that are not package-private render alike only when they are equal |
| CTypes.Create | src/main/java/com/falsepattern/jcodegen/CType.java:62-67 | the private constructor succeeds exactly for 0..255 dimensions and keeps its arguments; otherwise it throws `IllegalArgumentException` |
| CTypes.New | src/main/java/com/falsepattern/jcodegen/CType.java:69-75 | the public constructors make a non-primitive type, and fail outside 0..255 dimensions |
| CTypes.Named | src/main/java/com/falsepattern/jcodegen/CType.java:73-75 | `CType(name)` is what `CType(name, 0)` builds: its full name is the name, and it is not an array |
| CTypes.BracketsShape | src/main/java/com/falsepattern/jcodegen/CType.java:80-82 | the loop appends `n` pairs `[]` |
| CTypes.FullNameShape | src/main/java/com/falsepattern/jcodegen/CType.java:77-84 | `getName` is the base name followed by one `[]` per dimension |
| CTypes.IsArray | src/main/java/com/falsepattern/jcodegen/CType.java:100-102 | a type is an array exactly when `getName` differs from `getNameAsImport` |
| CTypes.SimpleNameUndotted | src/main/java/com/falsepattern/jcodegen/CType.java:90-98 | an undotted name is its own simple name, followed by the brackets |
| CTypes.SimpleNameQualified | src/main/java/com/falsepattern/jcodegen/CType.java:90-98 | for `q.last`, where `last` is non-empty and undotted, the simple name is `last` followed by the brackets |
| CTypes.ArrayOf | src/main/java/com/falsepattern/jcodegen/CType.java:108-110 | `arrayOf` keeps the name, adds one dimension, makes the type non-primitive, and throws at 255 dimensions |
| CTypes.ArrayBaseType | src/main/java/com/falsepattern/jcodegen/CType.java:112-114 | `arrayBaseType` keeps the name with no dimensions, returns a non-array unchanged, and makes an array's base non-primitive |
| CTypes.ArrayBaseTypeIdempotent | src/main/java/com/falsepattern/jcodegen/CType.java:112-114 | taking the base type twice is taking it once |
| CTypes.ArrayOfTimesShape | src/main/java/com/falsepattern/jcodegen/CType.java:108-110 | `n` calls of `arrayOf` add `n` dimensions while the limit allows |
| CTypes.ArrayRoundTrip | src/main/java/com/falsepattern/jcodegen/CType.java:108-114 | for a reference type, and for any type that is not an array, the base type wrapped in as many dimensions gives back the type |
| CTypes.AsImport | src/main/java/com/falsepattern/jcodegen/CType.java:152-154 | the import line is empty exactly for a primitive; otherwise it is `import `, the name without brackets, `;` and a newline |
| CTypes.AsImportByName | src/main/java/com/falsepattern/jcodegen/CType.java:152-154 | two reference types share an import line exactly when they share a name |
| CTypes.Hash | src/main/java/com/falsepattern/jcodegen/CType.java:167-170 | `hashCode` is `Objects.hash(name, primitive, arrayDimensions)`, a Java `int` |
| CTypes.Equals | src/main/java/com/falsepattern/jcodegen/CType.java:157-170 | `equals` holds exactly for equal name, kind and dimensions, and equal types hash alike |
| CTypes.ArrayOfDropsPrimitive | src/main/java/com/falsepattern/jcodegen/CType.java:108-110 | `INT.arrayOf()` is the reference type `int[]`: it differs from what `of(int[].class)` gives, and it asks for `import int;` |
| CTypes.ArrayOfKeepingKind | src/main/java/com/falsepattern/jcodegen/CType.java:108-110 | the corrected `arrayOf` keeps the name and the kind, adds one dimension, and throws at 255 |
| CTypes.ArrayBaseTypeKeepingKind | src/main/java/com/falsepattern/jcodegen/CType.java:112-114 | the corrected `arrayBaseType` keeps the name and the kind with no dimensions |
| CTypes.ArrayOfKeepingKindMatchesOf | src/main/java/com/falsepattern/jcodegen/CType.java:46-56 | the corrected `arrayOf` of `of(c)` is `of` of the array class of `c` |
| CTypes.ArrayBaseTypeKeepingKindMatchesOf | src/main/java/com/falsepattern/jcodegen/CType.java:46-56 | `of` of the base class is the corrected base type of `of(c)` |
| CTypes.ArrayRoundTripKeepingKind | src/main/java/com/falsepattern/jcodegen/CType.java:108-114 | with the corrected pair, every type, primitive ones included, round-trips through its base type |
| CTypes.ArrayOfKeepingKindTimesShape | src/main/java/com/falsepattern/jcodegen/CType.java:108-110 | `n` corrected `arrayOf` calls add `n` dimensions and keep the kind |
| CTypes.BaseOf | src/main/java/com/falsepattern/jcodegen/CType.java:172-177 | stripping array classes ends at a class that is not an array |
| CTypes.Decompose | src/main/java/com/falsepattern/jcodegen/CType.java:172-186 | a class is its base class wrapped in as many array levels as it has dimensions |
| CTypes.DecomposeUnique | src/main/java/com/falsepattern/jcodegen/CType.java:172-186 | the base class and the dimension count are the only such decomposition |
| CTypes.BaseTypeOfNDimensionalArray | src/main/java/com/falsepattern/jcodegen/CType.java:172-177 | the loop returns the non-array class that, wrapped in the dimensions, is the argument |
| CTypes.CountArrayDimensions | src/main/java/com/falsepattern/jcodegen/CType.java:179-186 | the loop counts exactly the array levels above the base class |
| CTypes.Derive | src/main/java/com/falsepattern/jcodegen/CType.java:46-56 | what `of` builds for a class succeeds exactly when the class has at most 255 dimensions |
| CTypes.DeriveAt | src/main/java/com/falsepattern/jcodegen/CType.java:50-53 | the type built from a base class and a depth exists exactly for depths up to 255 |
| CTypes.DeriveShape | src/main/java/com/falsepattern/jcodegen/CType.java:50-53 | `of` takes the base class's name with `$` turned into `.`, the base's kind, and the dimension count |
| CTypes.DeriveBase | src/main/java/com/falsepattern/jcodegen/CType.java:50-53 | a non-array class without `$` keeps its name and kind and gets no dimensions |
| CTypes.BuiltinsDerived | src/main/java/com/falsepattern/jcodegen/CType.java:36-44 | the nine constants are what `of` builds for `void`, the seven numeric and character primitives, and `Object` |
| CTypes.BuiltinClassesDistinct | src/main/java/com/falsepattern/jcodegen/CType.java:36-44 | the nine classes are non-array classes and pairwise distinct, so the cache keeps one entry for each |
| CTypes.TypeRegistry.constructor | src/main/java/com/falsepattern/jcodegen/CType.java:34-44 | class initialisation leaves exactly the nine built-in classes in the cache, each mapped to what `of` builds for it |
| CTypes.TypeRegistry.Of | src/main/java/com/falsepattern/jcodegen/CType.java:46-56 | `of` returns what the class determines; a hit leaves the cache alone, and a miss adds the new entry |
| CTypes.BuiltinLookup | src/main/java/com/falsepattern/jcodegen/CType.java:36-48 | a cached built-in class maps to its constant |
| CTypes.GetName | src/main/java/com/falsepattern/jcodegen/CType.java:77-84 | the loop appends one `[]` per dimension to the base name |
| CTypes.GetSimpleName | src/main/java/com/falsepattern/jcodegen/CType.java:90-98 | the loop appends one `[]` per dimension to the last dot-separated segment |
| Parameters.ParameterString | src/main/java/com/falsepattern/jcodegen/CParameter.java:53-56 | a parameter renders as its type's simple name, a space, and its name |
| Parameters.ParameterEquals | src/main/java/com/falsepattern/jcodegen/CParameter.java:39-51 | `equals` holds exactly for equal type and name, and equal parameters hash alike |
| Parameters.ParameterHash | src/main/java/com/falsepattern/jcodegen/CParameter.java:48-51 | `hashCode` is a Java `int` |
| Parameters.ParameterStrings | src/main/java/com/falsepattern/jcodegen/CParamList.java:49 | `map(CParameter::toString)` renders each parameter in order |
| Parameters.TypesOf | src/main/java/com/falsepattern/jcodegen/CParamList.java:44 | a type is collected exactly when some parameter has it |
| Parameters.Names | src/main/java/com/falsepattern/jcodegen/CClass.java:81 | `map(CParameter::getName)` lists the parameter names in order |
| Parameters.JoinParameters | src/main/java/com/falsepattern/jcodegen/CParamList.java:47-50 | the joined parameter text is empty exactly when there are no parameters |
| Parameters.JoinParametersAppend | src/main/java/com/falsepattern/jcodegen/CParamList.java:47-50 | one more parameter adds `, ` and its rendering |
| Parameters.JoinParametersSingle | src/main/java/com/falsepattern/jcodegen/CParamList.java:47-50 | a single parameter renders alone, without separators |
| Parameters.CParamList.constructor | src/main/java/com/falsepattern/jcodegen/CParamList.java:34-36 | the list holds the given parameters in order |
| Parameters.CParamList.FromArray | src/main/java/com/falsepattern/jcodegen/CParamList.java:30-32 | the list holds the array's parameters in order |
| Parameters.CParamList.GetParameters | src/main/java/com/falsepattern/jcodegen/CParamList.java:38-40 | the parameters are returned as stored |
| Parameters.CParamList.GetTypes | src/main/java/com/falsepattern/jcodegen/CParamList.java:42-45 | exactly the parameters' types, and no more types than parameters |
| Parameters.CParamList.ToString | src/main/java/com/falsepattern/jcodegen/CParamList.java:47-50 | the rendering is empty exactly when there are no parameters |
| Parameters.TypesCount | src/main/java/com/falsepattern/jcodegen/CParamList.java:42-45 | a list of parameters has at most as many distinct types as parameters |
| Parameters.CParamListBuilder.constructor | src/main/java/com/falsepattern/jcodegen/CParamList.java:56-58 | a new builder holds no parameters |
| Parameters.CParamListBuilder.AddParam | src/main/java/com/falsepattern/jcodegen/CParamList.java:59-62 | `addParam` appends the parameter |
| Parameters.CParamListBuilder.Build | src/main/java/com/falsepattern/jcodegen/CParamList.java:64-66 | `build` returns a new list of the collected parameters |
| ImmutableLists.CarriedTypes | src/main/java/com/falsepattern/jcodegen/CImmutableList.java:40-43 | a type is collected exactly when some element carries types and it is among them |
| ImmutableLists.ElementStrings | src/main/java/com/falsepattern/jcodegen/CImmutableList.java:47 | `map(Object::toString)` renders each element in order |
| ImmutableLists.CImmutableList.constructor | src/main/java/com/falsepattern/jcodegen/CImmutableList.java:32-34 | the list holds the given elements in order |
| ImmutableLists.CImmutableList.GetParameters | src/main/java/com/falsepattern/jcodegen/CImmutableList.java:36-38 | the elements are returned as stored |
| ImmutableLists.CImmutableList.GetTypes | src/main/java/com/falsepattern/jcodegen/CImmutableList.java:40-43 | exactly the types of the type-carrying elements; none when no element carries types |
| ImmutableLists.CImmutableList.ToString | src/main/java/com/falsepattern/jcodegen/CImmutableList.java:45-48 | the rendering is empty for no elements, and a single element renders alone |
| ImmutableLists.CImmutableListBuilder.constructor | src/main/java/com/falsepattern/jcodegen/CImmutableList.java:54-56 | a new builder holds no elements |
| ImmutableLists.CImmutableListBuilder.AddParam | src/main/java/com/falsepattern/jcodegen/CImmutableList.java:57-60 | `addParam` appends the element |
| ImmutableLists.CImmutableListBuilder.Build | src/main/java/com/falsepattern/jcodegen/CImmutableList.java:62-64 | `build` returns a new list of the collected elements |
| Annotations.ArgumentString | src/main/java/com/falsepattern/jcodegen/CAnnotationArgument.java:33-36 | an argument renders as its name, ` = `, and its value |
| Annotations.ArgumentHash | src/main/java/com/falsepattern/jcodegen/CAnnotationArgument.java:28-31 | `hashCode` is a Java `int` |
| Annotations.ArgumentEquals | src/main/java/com/falsepattern/jcodegen/CAnnotationArgument.java:19-31 | `equals` holds exactly for equal name and value, and equal arguments hash alike |
| Annotations.DefaultAnnotation | src/main/java/com/falsepattern/jcodegen/CAnnotation.java:10-17 | the builder's default argument list is a new empty list |
| Annotations.AnnotationTypes | src/main/java/com/falsepattern/jcodegen/CAnnotation.java:19-22 | an annotation carries exactly its own type |
| Annotations.AnnotationHash | src/main/java/com/falsepattern/jcodegen/CAnnotation.java:34-37 | `hashCode` is the type's hash, a Java `int` |
| Annotations.AnnotationEquals | src/main/java/com/falsepattern/jcodegen/CAnnotation.java:24-37 | `equals` compares only the types, and equal annotations hash alike |
| Annotations.AnnotationStringOver | src/main/java/com/falsepattern/jcodegen/CAnnotation.java:39-42 | the rendering starts with `@` and the simple name, and it has nothing more exactly when the arguments carry no types |
| Annotations.AnnotationString | src/main/java/com/falsepattern/jcodegen/CAnnotation.java:39-42 | because arguments carry no types, the rendering is always `@` and the simple name |
| Annotations.ArgumentsNeverRendered | src/main/java/com/falsepattern/jcodegen/CAnnotation.java:41 | an annotation with arguments renders like one without them, and differs from the rendering with the arguments in parentheses |
| Annotations.AnnotationStringWithArguments | src/main/java/com/falsepattern/jcodegen/CAnnotation.java:39-42 | the corrected rendering starts with `@` and the simple name, and it has nothing more exactly when there are no arguments |
| Annotations.AnnotationStringWithArgumentsShape | src/main/java/com/falsepattern/jcodegen/CAnnotation.java:39-42 | the corrected rendering is `@` and the simple name, followed by the parenthesised arguments exactly when there are any |
| Members.DefaultField | src/main/java/com/falsepattern/jcodegen/CField.java:28-40 | the builder's defaults: a private specifier and no initializer |
| Members.FieldType | src/main/java/com/falsepattern/jcodegen/CField.java:46 | `type()` is the field's type |
| Members.FieldString | src/main/java/com/falsepattern/jcodegen/CField.java:41-44 | a field renders as its declaration and `;`, with ` = ` and the initializer between them exactly when there is one |
| Members.Body | src/main/java/com/falsepattern/jcodegen/CConstructor.java:42-46 | a body is `{`, a newline, the indented code, and `}`; empty code gives one blank indented line |
| Members.DefaultConstructor | src/main/java/com/falsepattern/jcodegen/CConstructor.java:34-39 | the builder's defaults: a private specifier, a new empty parameter list, and no code |
| Members.ParameterListRendering | src/main/java/com/falsepattern/jcodegen/CConstructor.java:45 | a list of parameters renders as the parameters joined with `, ` |
| Members.ConstructorString | src/main/java/com/falsepattern/jcodegen/CConstructor.java:41-47 | a constructor renders as the specifier, the class name, and the parenthesised parameters, followed by the body |
| Members.DefaultConstructorRendering | src/main/java/com/falsepattern/jcodegen/CConstructor.java:34-47 | a default constructor renders as `private Name(){`, a blank indented line, and `}` |
| Members.ConstructorTypes | src/main/java/com/falsepattern/jcodegen/CConstructor.java:49-52 | the types are those of a list of parameters, which carry none, so the set is empty |
| Members.ConstructorEquals | src/main/java/com/falsepattern/jcodegen/CConstructor.java:54-62 | `equals` holds exactly when both constructors share the same list object |
| Members.DefaultMethod | src/main/java/com/falsepattern/jcodegen/CMethod.java:35-42 | the builder's defaults: a private specifier, a `void` result, and a new empty parameter list |
| Members.MethodString | src/main/java/com/falsepattern/jcodegen/CMethod.java:44-52 | a method renders as its declaration and the parenthesised parameters, followed by the body: `{`, a newline, the code indented by four, and `}` |
| Members.MethodTypes | src/main/java/com/falsepattern/jcodegen/CMethod.java:54-60 | exactly the return type and the parameters' types |
| Classes.Inherited | src/main/java/com/falsepattern/jcodegen/CClass.java:75-77 | `superConstructors` copies no more constructors than there are |
| Classes.InheritedIndices | src/main/java/com/falsepattern/jcodegen/CClass.java:75-77 | the copied constructors are those of `cs` at strictly increasing positions, in order, and a position is among them exactly when its constructor is not private and, across packages, not package-private |
| Classes.InheritedMembers | src/main/java/com/falsepattern/jcodegen/CClass.java:75-77 | a constructor is copied exactly when it is one of this class's constructors, is not private, and, across packages, is not package-private |
| Classes.SuperCopy | src/main/java/com/falsepattern/jcodegen/CClass.java:78-82 | the copy has the same visibility without `static` or `final`, a new list of the same parameters, and `super(names);` as its code |
| Classes.SuperCall | src/main/java/com/falsepattern/jcodegen/CClass.java:81 | the copy's code is `super(`, the parameter names joined with `, `, and `);`: `super();` without parameters, and `super(name);` for one |
| Classes.ShownImports | src/main/java/com/falsepattern/jcodegen/CClass.java:102 | an import is shown exactly when it is a reference type whose full name is not the package followed by its simple name |
| Classes.FilterEnumerates | src/main/java/com/falsepattern/jcodegen/CClass.java:102 | filtering a visiting order of the imports gives a visiting order of the shown imports |
| Classes.FilterShownSubsequence | src/main/java/com/falsepattern/jcodegen/CClass.java:102 | the filter keeps only shown imports, and it adds no repeats |
| Classes.FilterShownKeeps | src/main/java/com/falsepattern/jcodegen/CClass.java:102 | the filter keeps every shown import |
| Classes.ImportLines | src/main/java/com/falsepattern/jcodegen/CClass.java:102 | the import lines are ascending, and there are as many as there are shown imports |
| Classes.ImportLinesAnyOrder | src/main/java/com/falsepattern/jcodegen/CClass.java:102 | the import lines do not depend on the order the `HashSet` is visited in |
| Classes.ImportLinesCorrect | src/main/java/com/falsepattern/jcodegen/CClass.java:102 | the import lines are ascending, one per shown import, and a line appears exactly when some shown import asks for it |
| Classes.ShownLine | src/main/java/com/falsepattern/jcodegen/CClass.java:102 | a line is among the unsorted lines exactly when some shown import asks for it |
| Classes.SamePackageNotShown | src/main/java/com/falsepattern/jcodegen/CClass.java:102 | no type of the package's own, `pkg.Last` at any depth with `Last` non-empty and undotted, passes the import filter |
| Classes.SuperImport | src/main/java/com/falsepattern/jcodegen/CClass.java:103 | the superclass import, when there is one, is `import `, the full name, `;` and a newline; it is empty exactly when there is no superclass, the superclass is `Object`, or its full name is the package followed by its simple name |
| Classes.Extends | src/main/java/com/falsepattern/jcodegen/CClass.java:106 | the `extends` clause is empty exactly when there is no superclass or it is `Object`; otherwise it is ` extends ` and the superclass's simple name |
| Classes.SuperclassRules | src/main/java/com/falsepattern/jcodegen/CClass.java:103-106 | with no superclass, or `Object`, there is neither an `extends` clause nor an import; otherwise `extends` names the simple name, an import names the full name, and a plain `pkg.Last` is never imported |
| Classes.FieldGroup | src/main/java/com/falsepattern/jcodegen/CClass.java:88 | the joined fields are empty exactly when there are no fields |
| Classes.ConstructorGroup | src/main/java/com/falsepattern/jcodegen/CClass.java:89 | the joined constructors are empty exactly when there are no constructors |
| Classes.MethodGroup | src/main/java/com/falsepattern/jcodegen/CClass.java:90 | the joined methods are empty exactly when there are no methods |
| Classes.CClass.constructor | src/main/java/com/falsepattern/jcodegen/CClass.java:33-49 | a new class has the given package, specifier, name and superclass, and holds no imports and no members |
| Classes.CClass.WithDefaults | src/main/java/com/falsepattern/jcodegen/CClass.java:38-45 | the builder's defaults: a private specifier and `Object` as the superclass |
| Classes.CClass.GetCType | src/main/java/com/falsepattern/jcodegen/CClass.java:51-53 | the class's own type is named `pkg.name`, is a reference type, and is not an array |
| Classes.CClass.ImportImplicitly | src/main/java/com/falsepattern/jcodegen/CClass.java:55-57 | the type is added to the imports, the members do not change, and every member type stays imported |
| Classes.CClass.AddField | src/main/java/com/falsepattern/jcodegen/CClass.java:59-62 | the field's type is imported, the field is appended, nothing else changes, and every member type stays imported |
| Classes.CClass.AddConstructor | src/main/java/com/falsepattern/jcodegen/CClass.java:64-67 | the constructor's types are imported, the constructor is appended, nothing else changes, and every member type stays imported |
| Classes.CClass.AddSuperCopy | src/main/java/com/falsepattern/jcodegen/CClass.java:78-82 | the copy of one inherited constructor is appended to the subclass, and nothing else changes |
| Classes.CClass.AddMethod | src/main/java/com/falsepattern/jcodegen/CClass.java:69-72 | the method's types are imported, the method is appended, nothing else changes, and every member type stays imported |
| Classes.CClass.SuperConstructors | src/main/java/com/falsepattern/jcodegen/CClass.java:74-84 | the subclass's constructors are its old ones followed, in order, by one fresh copy of each inheritable constructor of this class; its imports and its other members do not change |
| Classes.CClass.SeparatorRules | src/main/java/com/falsepattern/jcodegen/CClass.java:107-112 | each newline between groups appears exactly when the group before it and a later group have members |
| Classes.CClass.EmptyClassRendering | src/main/java/com/falsepattern/jcodegen/CClass.java:91-112 | a class without members renders three blank indented lines before `}` |
| Classes.CClass.ClassString | src/main/java/com/falsepattern/jcodegen/CClass.java:86-113 | `toString` starts with the package line, a blank line and the import lines, and it ends with the member groups and `}` |
| Classes.CClass.OwnTypeNotImported | src/main/java/com/falsepattern/jcodegen/CClass.java:102 | the class's own type never passes the import filter |

## Left out

- `CType.tryGetClass` is not modelled: it uses reflection and a class loader.
- Java `Class` objects are replaced by the datatype `ClassDesc`: a named class with a primitive flag, or an array class of a component class.
- Lombok builders are modelled as constructors or functions that fill in the stated defaults. The fluent chaining of the builders is not modelled.
- `CConstructor.hashCode` is the identity hash of its list object, which has no value to model. `ConstructorEquals` models the identity comparison.
- `null` arguments and `@NonNull` checks are not modelled: every reference is present. A missing superclass is `None`.
- `CTypes.SimpleName` requires a name that is not a non-empty run of dots. For such a name, `getSimpleName` throws `ArrayIndexOutOfBoundsException`, which the model excludes by precondition (`SplitEmptyIff` states when this happens).
- `Indentation.StringUtil.GetPrefix` takes a `nat`: a negative indent makes `getPrefix` index the table out of bounds, which is not modelled.
- Strings are sequences of Dafny characters, not UTF-16 code units. Hashes and `compareTo` are modelled over these characters.
- Concurrent use of the `of` cache is not modelled.
- `superConstructors(this)` is excluded by precondition. When at least one constructor is passed on, Java throws `ConcurrentModificationException` there, because it appends to the list it iterates over. When none is, the call changes nothing, and the model does not cover that case either.
- The iteration order of the `imports` `HashSet` is an arbitrary ghost choice (`Sorting.Enumerate`). For that reason `CClass.toString` is the ghost function `Classes.CClass.ClassString`. `Classes.ImportLinesAnyOrder` shows that the order does not affect the output.
- An empty member group renders as four spaces and a newline, because `indent("")` yields one empty line. The model follows the code here, not the prose that describes empty groups as omitted.
- `Classes.CClass.GetCType` builds the type with the public two-argument constructor (`CType(name, 0)`); `CType.of(String, int)` is not part of this model.
- At `CClass.java:80` the copy's parameters are passed as a `CParamList` where a `CImmutableList` is expected. The model gives the copy a new `CImmutableList` of the same parameters.
- `CTypes.Hash`, `Parameters.ParameterHash`, `Annotations.ArgumentHash` and `Annotations.AnnotationHash` compute the Java numbers, but only the `int` range and equal hashes for equal values are stated about them.
- `CField` defines no `equals` or `hashCode` of its own, so no equality is modelled for it.
- `ImmutableLists.CImmutableList.ToString` is stated only for zero and one elements. For lists of parameters, `Members.ParameterListRendering` states the whole rendering.

## Findings

| source | as written | input that shows it | evidently intended | confidence | as-written member | corrected member |
|---|---|---|---|---|---|---|
| src/main/java/com/falsepattern/jcodegen/CType.java:108-114 | `arrayOf` and `arrayBaseType` build with the public constructor, which always sets `primitive = false` | `CType.INT.arrayOf()` is a reference type named `int` with one dimension; it is not equal to `CType.of(int[].class)`, and `asImport` gives `import int;` | keep the primitive flag, so that `arrayOf` agrees with `of` on the array class, and `arrayBaseType` undoes it | not executed | CTypes.ArrayOfDropsPrimitive | CTypes.ArrayRoundTripKeepingKind |
| src/main/java/com/falsepattern/jcodegen/CAnnotation.java:41 | the arguments are printed only when `params.getTypes()` is non-empty, but `CAnnotationArgument` carries no types | `@Foo` with the argument `value = 1` renders as `@Foo` | print `(` followed by the arguments and `)` whenever there are arguments | not executed | Annotations.ArgumentsNeverRendered | Annotations.AnnotationStringWithArguments |
