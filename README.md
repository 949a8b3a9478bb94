# chessProgram core, modelled in Dafny

This project models the computational core of a Java chess engine: the
board geometry, the packed move and board encodings, the position-update
rule, the per-piece destination rules, the move generator's double-check
restriction, and the text formats. The text formats are Standard Algebraic
Notation (PGN Standard, section 8.2.3) for moves and Forsyth-Edwards
Notation (PGN Standard, section 16.1) for positions. Each Java file of the
core becomes one Dafny module:

- `Squares`, `Directions`, `LineDirection`, `FeatureDirection`, `Movements`,
  `Sides`, `FileLines`, `RankLines`, `DownRightDiagonals`,
  `UpRightDiagonals`, `FeatureDownRightDiagonals` and `SixteenthSectors`
  give the board geometry. Squares are (file, rank) pairs with
  coordinates 0 to 7.
- `PieceTypes` and `Pieces` cover piece types and coloured pieces, with
  their ordinals, letters and 4-bit codes.
- `Words` and `MoveBitSections` model 32-bit Java ints as sequences of 32
  bits. `BasicMoves` covers move compression, decoding and the move
  builder.
- `ArrayBoards` is the nibble-packed board: nine words, one per file and
  one of rights. Its builder is a class that updates the words in place.
- `MoveMaking` is the position-update rule (`MoveMaker.performMove`),
  stated against a class standing for the abstract position builder.
- `ProcessedBoards` gives the board's answers (checks, pins, safe
  destinations, blocked paths) as inputs.
- `Knights`, `Kings`, `Pawns` and `EvenlySpacedCircles` are the
  per-piece destination rules.
- `MoveGeneration` is the top-level move generator, as a class with the
  Java fields.
- `AlgebraicNotation`, `MoveWriting`, `MoveParsing` and `NotationRoundTrip`
  cover the notation grammar, the move writer and parser, and the
  writer/parser round trip.
- `FenWriting` is the FEN writer, as a class that appends to its builder
  string.
- `Utilities`, `FixedOrderingSets`, `BreadthFirst` and `FixedSizeLists`
  are the support functions and small data structures.

Where the code does something other than it evidently intends, the model
keeps the code as written next to the intended version. It proves what
goes wrong in the version as written, and the rest of the model uses the
intended version; see "## Findings".

## Model

| member | source | states |
|---|---|---|
| Sides.Side.RookFile | workspace/chessProgram/src/boardFeatures/Side.java:19-20 | the rook file of a side lies on that side; it is file h for the kingside and file a for the queenside |
| Sides.ByBoolean | workspace/chessProgram/src/boardFeatures/Side.java:54-56 | the side returned is the kingside exactly when the flag is true |
| Sides.ByRelation | workspace/chessProgram/src/boardFeatures/Side.java:63-65 | the side returned contains the square, and it is the kingside exactly when the file index exceeds 3 |
| Sides.ExactlyOneSide | workspace/chessProgram/src/boardFeatures/Side.java:43-47 | every square is on exactly one of the two sides, and that side is the one `ByRelation` returns |
| Directions.ValuesByOrdinal | workspace/chessProgram/src/lines/Direction.java:22-30 | the directions are listed in declaration order: the ordinal indexes the value list |
| LineDirection.ByDeltas | workspace/chessProgram/src/lines/Direction.java:125-130 | deltas of magnitude above 1 give NONE; otherwise the direction returned has exactly the given file and rank deltas |
| LineDirection.Opposite | workspace/chessProgram/src/lines/Direction.java:66-68 | the opposite direction negates both deltas |
| LineDirection.OppositeIsInvolution | workspace/chessProgram/src/lines/Direction.java:66-68 | taking the opposite twice gives the direction back; only NONE is its own opposite |
| LineDirection.ManhattanStep | workspace/chessProgram/src/lines/Direction.java:91-93 | the step is 0 exactly for NONE, 1 exactly for file and rank directions, 2 exactly for diagonal directions |
| LineDirection.LineTypeOf | workspace/chessProgram/src/lines/Direction.java:136-149 | NONE has no line type; a direction is along a file, a rank, an up-right or a down-right diagonal exactly when its deltas say so |
| LineDirection.OppositeSharesLineType | workspace/chessProgram/src/lines/Direction.java:136-149 | a direction and its opposite move along the same type of line |
| LineDirection.MovementOf | workspace/chessProgram/src/lines/Direction.java:155-164 | NONE goes nowhere; a direction moves forwards exactly when it points right, or straight up, which is exactly when its ordinal is above the centre |
| LineDirection.OppositeReversesMovement | workspace/chessProgram/src/lines/Direction.java:155-164 | a direction other than NONE and its opposite move in different senses along their line |
| LineDirection.OutwardListing | workspace/chessProgram/src/lines/Direction.java:170-172 | the filtered list holds exactly the directions other than NONE |
| LineDirection.OutwardDirections | workspace/chessProgram/src/lines/Direction.java:170-172 | the outward directions are 8 distinct directions, exactly those other than NONE |
| FeatureDirection.ByDeltas | workspace/chessProgram/src/boardFeatures/Direction.java:91-96 | deltas of magnitude above 1 give null; otherwise the direction has the given deltas and agrees with the line-package lookup |
| FeatureDirection.OppositeAsWritten | workspace/chessProgram/src/boardFeatures/Direction.java:41-43 | as written, the lookup fails past the centre ordinal and otherwise returns the value at 4 minus the ordinal |
| FeatureDirection.OppositeAsWrittenIsWrong | workspace/chessProgram/src/boardFeatures/Direction.java:41-43 | as written, no direction gets its opposite: NONE gives DOWN_LEFT, DOWN_LEFT gives NONE, DOWN gives LEFT, UP has no value |
| FeatureDirection.Opposite | workspace/chessProgram/src/boardFeatures/Direction.java:41-43 | as intended, the opposite negates both deltas and sits as far past NONE as the direction sits before it |
| FeatureDirection.OppositeIsInvolution | workspace/chessProgram/src/boardFeatures/Direction.java:41-43 | the intended opposite undoes itself, fixes only NONE and equals the line-package opposite |
| FeatureDirection.LineClass | workspace/chessProgram/src/boardFeatures/Direction.java:102-115 | the line class of each direction is the same line type as in the line package |
| FeatureDirection.MovementOf | workspace/chessProgram/src/boardFeatures/Direction.java:121-130 | the movement is the reverse of the line-package movement: forwards exactly below the centre ordinal, backwards exactly above it |
| FeatureDirection.OutwardDirections | workspace/chessProgram/src/boardFeatures/Direction.java:136-138 | the outward directions are the same list as in the line package |
| Movements.Movement.Increment | workspace/chessProgram/src/lines/Movement.java:17-24 | the increment is -1 exactly for BACKWARDS, 0 exactly for NOWHERE and 1 exactly for FORWARDS |
| Movements.SquaresToMoveThrough | workspace/chessProgram/src/lines/Movement.java:32-41 | NOWHERE gives null; FORWARDS gives the squares after the square on its line, in order; BACKWARDS gives the squares before it, nearest first |
| PieceTypes.ByIndex | workspace/chessProgram/src/pieces/PieceType.java:56-58 | an index in 0..5 gives the type with that ordinal; any other index fails |
| PieceTypes.ByIndexOfOrdinal | workspace/chessProgram/src/pieces/PieceType.java:56-58 | looking a type up by its own ordinal gives it back |
| PieceTypes.ByLetter | workspace/chessProgram/src/pieces/PieceType.java:65-75 | exactly the letters P, N, B, R, Q and K give a type, the one with that letter; any other string fails |
| PieceTypes.LetterRoundTrip | workspace/chessProgram/src/pieces/PieceType.java:65-75 | looking a type up by its letter gives it back |
| PieceTypes.LongRangeExactly | workspace/chessProgram/src/pieces/PieceType.java:81-83 | a type is long-range exactly when it is a bishop, rook or queen, exactly the line movers |
| PieceTypes.PromotionPiecesExactly | workspace/chessProgram/src/pieces/PieceType.java:89-99 | a type is a promotion piece exactly when it is in the promotion array, which lists knight, bishop, rook and queen in ordinal order |
| Pieces.ValuesByOrdinal | workspace/chessProgram/src/pieces/Piece.java:12-24 | the pieces are listed in declaration order: the ordinal indexes the value list |
| Pieces.DerivationMatchesNames | workspace/chessProgram/src/pieces/Piece.java:30-37 | the type and colour computed from the ordinal are those of each piece's name; NONE has neither |
| Pieces.ByBits | workspace/chessProgram/src/pieces/Piece.java:70-75 | bits 0..12 give the piece with that bit representation; any other value fails |
| Pieces.BitsRoundTrip | workspace/chessProgram/src/pieces/Piece.java:61-75 | decoding a piece's bit representation gives the piece back |
| Pieces.ByColorAndTypeAsWritten | workspace/chessProgram/src/pieces/Piece.java:83-88 | as written, a missing colour or type gives NONE, and every white lookup gives the white pawn |
| Pieces.ByColorAndTypeAsWrittenLosesType | workspace/chessProgram/src/pieces/Piece.java:87 | as written, a white knight lookup returns a piece whose type is pawn |
| Pieces.ByColorAndType | workspace/chessProgram/src/pieces/Piece.java:83-88 | a missing colour or type gives NONE; otherwise the piece has exactly the given colour and type |
| Pieces.ByColorAndTypeInverse | workspace/chessProgram/src/pieces/Piece.java:83-88 | looking a piece up by its own colour and type gives it back |
| Pieces.LegalMovesGuard | workspace/chessProgram/src/pieces/Piece.java:96-106 | legal moves are computed exactly when the piece is on the square and belongs to the side to move, which excludes NONE |
| MoveBitSections.Section.LengthMask | workspace/chessProgram/src/moves/MoveBitStringSection.java:34 | the mask has exactly the low `length` bits set |
| MoveBitSections.Section.SetValue | workspace/chessProgram/src/moves/MoveBitStringSection.java:43-46 | bits outside the section are kept; each bit inside it is the receptacle's bit or-ed with the matching low bit of the value |
| MoveBitSections.Section.GetValue | workspace/chessProgram/src/moves/MoveBitStringSection.java:73-75 | bit i of the result is bit startBit+i of the receptacle for i below the length, and clear above it |
| MoveBitSections.Section.GetInt | workspace/chessProgram/src/moves/MoveBitStringSection.java:73-75 | the value read from a section is below 2 to the power of its length |
| MoveBitSections.SectionFits | workspace/chessProgram/src/moves/MoveBitStringSection.java:12-26 | every section is at least one bit long and ends within the 32-bit word |
| MoveBitSections.Layout | workspace/chessProgram/src/moves/MoveBitStringSection.java:12-26 | the sections start at bit 0, each starts where the previous ends, and the last ends at bit 32 |
| MoveBitSections.RangesDisjoint | workspace/chessProgram/src/moves/MoveBitStringSection.java:12-26 | two different sections occupy disjoint bit ranges |
| MoveBitSections.SetBoolReadsBack | workspace/chessProgram/src/moves/MoveBitStringSection.java:54-56 | writing a boolean into a clear section reads back 1 for true and 0 for false |
| MoveBitSections.SetOrdinalReadsBack | workspace/chessProgram/src/moves/MoveBitStringSection.java:64-66 | writing an ordinal (0 for null) that fits into a clear section reads it back |
| MoveBitSections.SetGetRoundTrip | workspace/chessProgram/src/moves/MoveBitStringSection.java:43-75 | writing a value that fits into a clear section and reading the section gives the value back |
| MoveBitSections.SetLeavesOthers | workspace/chessProgram/src/moves/MoveBitStringSection.java:43-46 | writing one section leaves the value of every other section unchanged |
| BasicMoves.Make | workspace/chessProgram/src/moves/BasicMove.java:51-89 | the flags follow the move type (capture for the two capture types, promotion for the two promotion types, castle, en passant); the captured and promotion pieces are kept only for their types |
| BasicMoves.MakeHasItsKind | workspace/chessProgram/src/moves/BasicMove.java:51-89 | the move built from a type is classified as that type again |
| BasicMoves.Decode | workspace/chessProgram/src/moves/BasicMove.java:30-40 | decoding succeeds exactly when the moving piece and, for a capture, the captured piece are valid type indices; the move decoded is well formed and its capture and promotion flags are the word's bits |
| BasicMoves.PromotionPiecesAreForPromotion | workspace/chessProgram/src/moves/BasicMove.java:38 | every type the promotion index can decode to is a promotion piece |
| BasicMoves.OrSet | workspace/chessProgram/src/moves/BasicMove.java:150 | or-ing a section's written word into the word is the same as writing the section |
| BasicMoves.SetAllLeaves | workspace/chessProgram/src/moves/BasicMove.java:148-160 | a sequence of section writes leaves every section it does not write unchanged |
| BasicMoves.SetAllReads | workspace/chessProgram/src/moves/BasicMove.java:148-160 | after distinct fitting writes into clear sections, each section reads back the value written to it |
| BasicMoves.CompressAsWritten | workspace/chessProgram/src/moves/BasicMove.java:148-160 | as written, compression completes exactly when both the captured piece and the promotion piece are present |
| BasicMoves.Compress | workspace/chessProgram/src/moves/BasicMove.java:148-160 | as intended, a missing captured or promotion piece is written as 0; for a well-formed move the moving piece, start and end squares and the four flags each read back from their sections |
| BasicMoves.CompressAsWrittenOnlyPromotionWithCapture | workspace/chessProgram/src/moves/BasicMove.java:152-157 | as written, only a promotion with capture can be compressed; every other move type fails on a missing piece |
| BasicMoves.CompressAsWrittenAgrees | workspace/chessProgram/src/moves/BasicMove.java:148-160 | whenever the as-written compression completes it gives the corrected word |
| BasicMoves.PackReadsBack | workspace/chessProgram/src/moves/BasicMove.java:148-160 | each of the nine fields written into the word reads back as written |
| BasicMoves.ZeroWordReadsZero | workspace/chessProgram/src/moves/BasicMove.java:149 | every section of the zero word reads 0 |
| BasicMoves.DecodeCompress | workspace/chessProgram/src/moves/BasicMove.java:148-160 | decoding the compression of a well-formed move gives the move back |
| BasicMoves.ArgCheck | workspace/chessProgram/src/moves/BasicMove.java:267-271 | the check passes exactly when the equality of the value and the expected value is what was asked for |
| BasicMoves.MoveBuilder.constructor | workspace/chessProgram/src/moves/BasicMove.java:178-198 | the builder holds the type, piece and squares; an en passant builder starts with a captured pawn; nothing else is set |
| BasicMoves.MoveBuilder.WithCaptureAsWritten | workspace/chessProgram/src/moves/BasicMove.java:205-213 | as written, the call throws when no captured piece is set yet, and succeeds only on a capture type whose captured piece is already set |
| BasicMoves.MoveBuilder.WithPromotionAsWritten | workspace/chessProgram/src/moves/BasicMove.java:220-229 | as written, the call throws when no promotion piece is set yet, and succeeds only when one is already set |
| BasicMoves.MoveBuilder.WithCapture | workspace/chessProgram/src/moves/BasicMove.java:205-213 | the captured piece is set exactly when none was set and the type is a capture type; on failure nothing changes |
| BasicMoves.MoveBuilder.WithPromotion | workspace/chessProgram/src/moves/BasicMove.java:220-229 | the promotion piece is set exactly when none was set, the type is a promotion type and the piece can be promoted to; on failure nothing changes |
| BasicMoves.MoveBuilder.Build | workspace/chessProgram/src/moves/BasicMove.java:235-258 | building succeeds exactly when a promotion type has its promotion piece and a capture type its captured piece; the move is well formed, of the builder's type, with the builder's piece and squares |
| BasicMoves.NewMoveBuilder | workspace/chessProgram/src/moves/BasicMove.java:178-198 | a castle needs the king and en passant or promotion needs the pawn, otherwise the constructor throws; the new builder is valid and holds its arguments |
| BasicMoves.CaptureCannotBeBuiltAsWritten | workspace/chessProgram/src/moves/BasicMove.java:205-213 | as written, adding a captured piece to a fresh capture builder always throws |
| BasicMoves.PromotionCannotBeBuiltAsWritten | workspace/chessProgram/src/moves/BasicMove.java:220-229 | as written, adding a promotion piece to a fresh promotion builder always throws |
| BasicMoves.CaptureIsBuilt | workspace/chessProgram/src/moves/BasicMove.java:205-258 | with the corrected check, a capture builder given a captured piece builds a well-formed capture of that piece |
| ArrayBoards.ColorMaskBits | workspace/chessProgram/src/immutableArrayBoard/ImmutableArrayBoard.java:31 | the colour mask has exactly bit 8 set |
| ArrayBoards.SmallMaskBits | workspace/chessProgram/src/immutableArrayBoard/ImmutableArrayBoard.java:35 | the en passant permission mask is bit 3, the piece mask bits 0-3, the file mask bits 0-2, and the literal ~0b11110000 every bit but 4-7 |
| ArrayBoards.NibbleValue | workspace/chessProgram/src/immutableArrayBoard/ImmutableArrayBoard.java:183-185 | shifting a file's word right by four bits per rank and masking with 0b1111 gives the number held in that square's four bits, below 16 |
| ArrayBoards.OrNibbleOther | workspace/chessProgram/src/immutableArrayBoard/ImmutableArrayBoard.java:171-174 | or-ing a piece's bits into one square leaves every other square of the file unchanged |
| ArrayBoards.OrNibbleSame | workspace/chessProgram/src/immutableArrayBoard/ImmutableArrayBoard.java:171-174 | or-ing a piece's bits into an empty square makes the square read those bits |
| ArrayBoards.ClearNibble | workspace/chessProgram/src/immutableArrayBoard/ImmutableArrayBoard.java:171-174 | masking a square's four bits off empties that square and leaves the other squares of the file unchanged |
| ArrayBoards.ArrayBoard.BitsAtSquare | workspace/chessProgram/src/immutableArrayBoard/ImmutableArrayBoard.java:183-185 | the bits of a square are the four bits of its rank in the word of its file |
| ArrayBoards.ArrayBoard.PieceAtSquare | workspace/chessProgram/src/immutableArrayBoard/ImmutableArrayBoard.java:57-60 | a square reads as the piece whose bit representation its bits are; bits 13-15 fail |
| ArrayBoards.ArrayBoard.WhoseMove | workspace/chessProgram/src/immutableArrayBoard/ImmutableArrayBoard.java:63-66 | white is to move exactly when bit 8 of the rights word is set |
| ArrayBoards.ArrayBoard.CanCastleAsWritten | workspace/chessProgram/src/immutableArrayBoard/ImmutableArrayBoard.java:68-71 | as written, the right is read as whether the rights word shifted right by its ordinal modulo 2 equals 1: bit 0 or 1 set and nothing above it |
| ArrayBoards.ArrayBoard.CanCastle | workspace/chessProgram/src/immutableArrayBoard/ImmutableArrayBoard.java:68-71 | a castling right is allowed exactly when the rights word's bit at its ordinal is set |
| ArrayBoards.ArrayBoard.EnPassantCaptureFile | workspace/chessProgram/src/immutableArrayBoard/ImmutableArrayBoard.java:73-78 | there is an en passant file exactly when bit 7 of the rights word is set, and it is the number held in bits 4-6 |
| ArrayBoards.CanCastleAsWrittenMisreads | workspace/chessProgram/src/immutableArrayBoard/ImmutableArrayBoard.java:70 | as written, a board with white to move and only the black kingside right reads that right as not allowed |
| ArrayBoards.ArrayBoardBuilder.FromWords | workspace/chessProgram/src/immutableArrayBoard/ImmutableArrayBoard.java:106-108 | the builder holds a fresh copy of the given words |
| ArrayBoards.ArrayBoardBuilder.FromBoard | workspace/chessProgram/src/immutableArrayBoard/ImmutableArrayBoard.java:115-117 | the builder builds a board equal to the given one, from a fresh copy |
| ArrayBoards.SetPieceAtSquareOn | workspace/chessProgram/src/immutableArrayBoard/ImmutableArrayBoard.java:171-174 | on a null `board` field the write throws; otherwise the square's file word gains the shifted bits and every other word is kept |
| ArrayBoards.FromPiecesAsWritten | workspace/chessProgram/src/immutableArrayBoard/ImmutableArrayBoard.java:97-126 | as written the constructor throws a NullPointerException for every input: the superclass placement loop runs before the field initialiser of line 99 |
| ArrayBoards.ArrayBoardBuilder.FromPieces | workspace/chessProgram/src/immutableArrayBoard/ImmutableArrayBoard.java:119-126 | as intended (see "## Findings"): every square reads as the given piece of its ordinal; the given colour is to move; no castling right and no en passant file |
| ArrayBoards.ArrayBoardBuilder.PlacePieces | workspace/chessProgram/src/representation/BoardBuilder.java:18-21 | the placement loop on an initialised, empty board: each square ends holding the bits of its piece, and the rights word stays zero |
| ArrayBoards.ArrayBoardBuilder.SetRightsByBitMask | workspace/chessProgram/src/immutableArrayBoard/ImmutableArrayBoard.java:162-164 | the rights word is or-ed with the mask when the flag is set and and-ed with its complement otherwise; the file words are unchanged |
| ArrayBoards.ArrayBoardBuilder.SetPieceAtSquare | workspace/chessProgram/src/immutableArrayBoard/ImmutableArrayBoard.java:171-174 | the square's file word is or-ed with the piece bits shifted to the square's rank; every other word is unchanged |
| ArrayBoards.ArrayBoardBuilder.WithPieceAtSquareAsWritten | workspace/chessProgram/src/immutableArrayBoard/ImmutableArrayBoard.java:134-138 | as written, the bits are or-ed in: an empty square then holds the piece, every other square and the rights are unchanged |
| ArrayBoards.ArrayBoardBuilder.WithPieceAtSquare | workspace/chessProgram/src/immutableArrayBoard/ImmutableArrayBoard.java:134-138 | the square then reads as the piece, whatever it held; every other square and the rights are unchanged |
| ArrayBoards.ArrayBoardBuilder.WithColorToMove | workspace/chessProgram/src/immutableArrayBoard/ImmutableArrayBoard.java:128-132 | the given colour is then to move; every other rights bit and every file word is unchanged |
| ArrayBoards.ArrayBoardBuilder.WithCastlingRight | workspace/chessProgram/src/immutableArrayBoard/ImmutableArrayBoard.java:140-144 | the right is then allowed exactly when enabled; every other rights bit and every file word is unchanged |
| ArrayBoards.ArrayBoardBuilder.WithEnPassantAsWritten | workspace/chessProgram/src/immutableArrayBoard/ImmutableArrayBoard.java:146-150 | as written, clearing keeps only bits 4-7 of the rights word, and setting ors the file and the permission bit in without clearing the old file |
| ArrayBoards.ArrayBoardBuilder.WithEnPassant | workspace/chessProgram/src/immutableArrayBoard/ImmutableArrayBoard.java:146-150 | the board then reads back exactly the given en passant file, or none; rights bits outside 4-7 and the file words are unchanged |
| ArrayBoards.PiecesReadBack | workspace/chessProgram/src/immutableArrayBoard/ImmutableArrayBoard.java:57-60 | a board whose squares hold the bits of the given pieces reads back those pieces |
| ArrayBoards.EnPassantWordCleared | workspace/chessProgram/src/immutableArrayBoard/ImmutableArrayBoard.java:148 | masking with ~0b11110000 clears the en passant permission and keeps every bit outside 4-7 |
| ArrayBoards.EnPassantWordSet | workspace/chessProgram/src/immutableArrayBoard/ImmutableArrayBoard.java:148 | after clearing, or-ing in the file with the permission bit shifted by 4 sets the permission, holds the file in bits 4-6 and keeps every other bit |
| ArrayBoards.OverwriteAsWrittenMixesPieces | workspace/chessProgram/src/immutableArrayBoard/ImmutableArrayBoard.java:171-174 | as written, placing a white knight on a square holding a white pawn leaves a white bishop there |
| ArrayBoards.KnightOverPawn | workspace/chessProgram/src/immutableArrayBoard/ImmutableArrayBoard.java:173 | the knight's bits or-ed over the pawn's bits are the bishop's bits |
| ArrayBoards.ClearEnPassantAsWrittenLosesTurn | workspace/chessProgram/src/immutableArrayBoard/ImmutableArrayBoard.java:148 | as written, clearing the en passant file on a board with white to move leaves black to move |
| FileLines.ManhattanDistanceToSquare | workspace/chessProgram/src/lines/File.java:75-78 | the distance is never negative, and it is 0 exactly when the square is on the file |
| FileLines.DistanceIsNearest | workspace/chessProgram/src/lines/File.java:75-78 | the distance is the absolute file difference, no square of the file is nearer, and the square of the file on the same rank attains it |
| FileLines.ByHumanReadableForm | workspace/chessProgram/src/lines/File.java:96-108 | null gives null; a string succeeds exactly when its first letter is a to h, giving that file's index; anything else throws |
| FileLines.ByHumanReadableFormOfLetter | workspace/chessProgram/src/lines/File.java:96-108 | reading a file's letter gives the file back |
| FileLines.ContainedSquares | workspace/chessProgram/src/lines/File.java:126-133 | a file holds 8 squares, the one at position i on rank i |
| FileLines.ContainedSquaresExactly | workspace/chessProgram/src/lines/File.java:70-73 | a square is in a file's list exactly when it is on that file |
| FileLines.FileSquareTable.SetContainedSquares | workspace/chessProgram/src/lines/File.java:126-133 | afterwards every file has its 8 squares in rank order and the exact reverse of that list |
| RankLines.ContainedSquares | workspace/chessProgram/src/boardFeatures/Rank.java:35-37 | a rank holds 8 squares, the one at position i on file i |
| RankLines.ReverseContainedSquares | workspace/chessProgram/src/boardFeatures/Rank.java:42 | the reverse list holds the same squares from file h down to file a |
| RankLines.SpotInLine | workspace/chessProgram/src/boardFeatures/Rank.java:69-72 | the spot of a square is where it stands in its rank's list |
| RankLines.ForwardStepsAlongList | workspace/chessProgram/src/boardFeatures/Rank.java:26 | one step in the forward direction, RIGHT, goes from each square of a rank's list to the next |
| RankLines.ContainedSquaresExactly | workspace/chessProgram/src/boardFeatures/Rank.java:64-67 | a square is in a rank's list exactly when it is on that rank |
| RankLines.ByHumanReadableForm | workspace/chessProgram/src/boardFeatures/Rank.java:94-104 | a string succeeds exactly when it parses as an integer n in 1..8, giving index n - 1; anything else throws |
| RankLines.ByHumanReadableFormOfDigit | workspace/chessProgram/src/boardFeatures/Rank.java:94-104 | reading a rank's digit gives the rank back |
| DownRightDiagonals.BySquare | workspace/chessProgram/src/lines/DownRightDiagonal.java:93-96 | a square's down-right diagonal is the sum of its file and rank indices |
| DownRightDiagonals.DistanceIsNearest | workspace/chessProgram/src/lines/DownRightDiagonal.java:73-76 | the distance, the difference of diagonal indices, is the least Manhattan distance from the square to a square of the diagonal, and some square attains it |
| DownRightDiagonals.Length | workspace/chessProgram/src/lines/DownRightDiagonal.java:105 | a diagonal holds between 1 and 8 squares |
| DownRightDiagonals.ContainedSquares | workspace/chessProgram/src/lines/DownRightDiagonal.java:103-116 | the list has the diagonal's length; every square of it is on the diagonal, and each next square is one file right and one rank down |
| DownRightDiagonals.ContainedSquaresExactly | workspace/chessProgram/src/lines/DownRightDiagonal.java:103-116 | a square is in a diagonal's list exactly when it is on that diagonal |
| DownRightDiagonals.DiagonalSquareTable.SetContainedSquares | workspace/chessProgram/src/lines/DownRightDiagonal.java:134-139 | afterwards each of the 15 diagonals has its list of squares and the exact reverse of it |
| UpRightDiagonals.BySquare | workspace/chessProgram/src/boardFeatures/UpRightDiagonal.java:109-112 | a square's up-right diagonal is 7 plus its file index minus its rank index |
| UpRightDiagonals.Length | workspace/chessProgram/src/boardFeatures/UpRightDiagonal.java:45 | a diagonal holds between 1 and 8 squares |
| UpRightDiagonals.ContainedSquares | workspace/chessProgram/src/boardFeatures/UpRightDiagonal.java:43-56 | the list has the diagonal's length; every square of it is on the diagonal, and each next square is one file right and one rank up |
| UpRightDiagonals.ReverseContainedSquares | workspace/chessProgram/src/boardFeatures/UpRightDiagonal.java:35 | the reverse list is the exact reverse of the list |
| UpRightDiagonals.ContainedSquaresExactly | workspace/chessProgram/src/boardFeatures/UpRightDiagonal.java:79-82 | a square is in a diagonal's list exactly when it is on that diagonal |
| UpRightDiagonals.SpotInLine | workspace/chessProgram/src/boardFeatures/UpRightDiagonal.java:84-87 | the spot in line of a square is its rank index |
| UpRightDiagonals.SpotRisesAlongList | workspace/chessProgram/src/boardFeatures/UpRightDiagonal.java:84-87 | the spot rises by one from each square of a diagonal's list to the next |
| UpRightDiagonals.ForwardStepsAlongList | workspace/chessProgram/src/boardFeatures/UpRightDiagonal.java:29 | one step in the forward direction, UP_RIGHT, goes from each square of a diagonal's list to the next |
| FeatureDownRightDiagonals.BySquare | workspace/chessProgram/src/boardFeatures/DownRightDiagonal.java:104-107 | the diagonal of a square is the same as in the line package: the sum of file and rank |
| FeatureDownRightDiagonals.SpotInLine | workspace/chessProgram/src/boardFeatures/DownRightDiagonal.java:84-87 | the spot is the rank index, which falls by one for the square one file to the right on the same diagonal |
| FeatureDownRightDiagonals.ContainedSquaresAsWritten | workspace/chessProgram/src/boardFeatures/DownRightDiagonal.java:43-57 | as written, when the stream does not throw, the list has as many squares as the diagonal holds (which diagonals throw is `ContainedSquaresAsWrittenByIndex`) |
| FeatureDownRightDiagonals.ListFromUpToLongDiagonal | workspace/chessProgram/src/boardFeatures/DownRightDiagonal.java:43-56 | on diagonals up to the long one, the as-written list from an offset on is the correct list from that offset on |
| FeatureDownRightDiagonals.ContainedSquaresAsWrittenByIndex | workspace/chessProgram/src/boardFeatures/DownRightDiagonal.java:54 | as written, diagonals 0-7 get their correct squares, diagonals 8-13 throw on a negative rank, and the h8 diagonal is given h1, which is not on it |
| SixteenthSectors.ByIncrements | workspace/chessProgram/src/boardFeatures/SixteenthSector.java:72-101 | zero increments throw; any other increments give the sector of their direction |
| SixteenthSectors.Relation | workspace/chessProgram/src/boardFeatures/SixteenthSector.java:109-113 | the same square throws; otherwise the sector is that of the file and rank differences from the centre to the remote square |
| SixteenthSectors.DeclaredOffsets | workspace/chessProgram/src/boardFeatures/SixteenthSector.java:16-31 | each of the sixteen sectors is the one of the offsets its declaration names |
| SixteenthSectors.BetweenLinesIffOdd | workspace/chessProgram/src/boardFeatures/SixteenthSector.java:53-56 | a direction falls in an odd sector, between lines, exactly when it is not along a file, rank or diagonal |
| SixteenthSectors.QuarterTurn | workspace/chessProgram/src/boardFeatures/SixteenthSector.java:72-101 | turning a direction a quarter turn clockwise moves it four sectors on |
| SixteenthSectors.HalfTurn | workspace/chessProgram/src/boardFeatures/SixteenthSector.java:72-101 | reversing a direction moves it eight sectors on |
| SixteenthSectors.ScaleInvariant | workspace/chessProgram/src/boardFeatures/SixteenthSector.java:72-101 | scaling both increments by the same positive factor keeps the sector |
| SixteenthSectors.NearestSectors | workspace/chessProgram/src/boardFeatures/SixteenthSector.java:41-43 | a sector between lines has one nearest sector, the diagonal of its quarter; a sector on a line has its two neighbours, both between lines |
| SixteenthSectors.SectorTable.InitializeNearestSectors | workspace/chessProgram/src/boardFeatures/SixteenthSector.java:34-45 | afterwards each of the 16 sectors holds its nearest sectors |
| EvenlySpacedCircles.SectorMap | workspace/chessProgram/src/moveCalculationStructures/EvenlySpacedCircleImpl.java:48-55 | every entry of the sector map is a square of the ring under its own sector |
| EvenlySpacedCircles.SectorMapFinds | workspace/chessProgram/src/moveCalculationStructures/EvenlySpacedCircleImpl.java:48-55 | in a placeable ring, each square is found under its own sector |
| EvenlySpacedCircles.SectorMapSize | workspace/chessProgram/src/moveCalculationStructures/EvenlySpacedCircleImpl.java:53-54 | in a placeable ring, the sector map has as many entries as the ring has squares |
| EvenlySpacedCircles.PlaceableAppend | workspace/chessProgram/src/moveCalculationStructures/EvenlySpacedCircleImpl.java:48-55 | adding a square whose sector is free keeps the ring placeable and adds that one entry to the map |
| EvenlySpacedCircles.SectorTaken | workspace/chessProgram/src/moveCalculationStructures/EvenlySpacedCircleImpl.java:49-52 | a square whose sector is already taken cannot join the ring |
| EvenlySpacedCircles.Occupants | workspace/chessProgram/src/moveCalculationStructures/EvenlySpacedCircleImpl.java:73-75 | the squares kept are exactly the squares of the map under the given sectors |
| EvenlySpacedCircles.EvenlySpacedCircle.constructor | workspace/chessProgram/src/moveCalculationStructures/EvenlySpacedCircleImpl.java:27-33 | a circle about the centre starts with no squares and no sectors |
| EvenlySpacedCircles.EvenlySpacedCircle.AddRing | workspace/chessProgram/src/moveCalculationStructures/EvenlySpacedCircleImpl.java:44-57 | the loop succeeds exactly when the ring has at most 8 squares, none of them the centre and no two in one sector; then the circle holds the ring in order and its sector map |
| EvenlySpacedCircles.EvenlySpacedCircle.Put | workspace/chessProgram/src/moveCalculationStructures/EvenlySpacedCircleImpl.java:48-55 | one square is added at the end when its sector is free; a refused square could not have joined |
| EvenlySpacedCircles.EvenlySpacedCircle.Iterate | workspace/chessProgram/src/moveCalculationStructures/EvenlySpacedCircleImpl.java:59-62 | iteration yields the squares in the order they were added |
| EvenlySpacedCircles.EvenlySpacedCircle.NearestSquares | workspace/chessProgram/src/moveCalculationStructures/EvenlySpacedCircleImpl.java:64-76 | the centre itself throws; a remote square whose sector is occupied gives that one square; otherwise the squares of the circle in the nearest sectors |
| EvenlySpacedCircles.NewEvenlySpacedCircle | workspace/chessProgram/src/moveCalculationStructures/EvenlySpacedCircleImpl.java:44-57 | construction succeeds exactly for a placeable ring, holding the ring in order and one sector entry per square |
| Knights.OffsetsAreKnightJumps | workspace/chessProgram/src/pieceUtilities/Knight.java:26-35 | the offset table holds 8 distinct pairs, exactly the knight jumps of one and two squares |
| Knights.JumpsFrom | workspace/chessProgram/src/pieceUtilities/Knight.java:44-48 | the on-board jumps number at most the offsets, and each is the start square shifted by one of the offsets |
| Knights.JumpsFromComplete | workspace/chessProgram/src/pieceUtilities/Knight.java:44-48 | every offset that stays on the board gives a kept jump |
| Knights.JumpsExactly | workspace/chessProgram/src/pieceUtilities/Knight.java:44-48 | a square is among the jumps exactly when it is a knight's jump from the start; there are at most 8 |
| Knights.JumpsFromDistinct | workspace/chessProgram/src/pieceUtilities/Knight.java:44-48 | distinct offsets give distinct squares |
| Knights.OffsetSectorsDistinct | workspace/chessProgram/src/pieceUtilities/Knight.java:26-35 | every offset lies between lines, and two different offsets lie in different sixteenth sectors |
| Knights.JumpsPlaceable | workspace/chessProgram/src/pieceUtilities/Knight.java:49 | the jumps can always be placed on an evenly spaced circle about the start square |
| Knights.PossibleSquaresToThreaten | workspace/chessProgram/src/pieceUtilities/Knight.java:42-51 | the result holds at most 8 distinct squares, exactly the knight's jumps from the square that are on the board |
| Kings.PossibleCastleSquares | workspace/chessProgram/src/pieceUtilities/King.java:48-54 | off the king's castle square there are none; on it there are two, exactly the g and c squares of the back rank |
| Kings.Neighbors | workspace/chessProgram/src/pieceUtilities/King.java:62-66 | one entry per direction of the value list, the neighbour in that direction or null |
| Kings.CanCastle | workspace/chessProgram/src/pieceUtilities/King.java:79-82 | castling towards a square needs the right of the mover's colour on that square's side, and the square the king crosses (f or d on the back rank) among the safe destinations |
| Kings.PossibleSquaresToThreaten | workspace/chessProgram/src/pieceUtilities/King.java:62-66 | the threatened squares are exactly the non-null neighbours |
| Kings.StepIsShort | workspace/chessProgram/src/pieceUtilities/King.java:62-66 | every direction moves at most one file and one rank |
| Kings.ThreatenedExactly | workspace/chessProgram/src/pieceUtilities/King.java:62-66 | a square is threatened exactly when it lies at most one file and one rank away |
| Kings.LegalSquaresToMoveTo | workspace/chessProgram/src/pieceUtilities/King.java:92-97 | the result is the safe destinations without an own piece that are less than two files away or pass the castle validation |
| Kings.SquaresToMoveToNoChecks | workspace/chessProgram/src/pieceUtilities/King.java:99-103 | without check, a square is a destination exactly when it is safe, holds no own piece, and is at most one file away or a castle that `canCastle` allows |
| Kings.SquaresToMoveToTwoChecks | workspace/chessProgram/src/pieceUtilities/King.java:110-113 | under two checks, a square is a destination exactly when it is safe, holds no own piece and is at most one file away |
| Kings.SquaresToMoveToOneCheck | workspace/chessProgram/src/pieceUtilities/King.java:105-108 | under one check, the same destinations as under two, whatever the checking square |
| Kings.NoChecksDestinations | workspace/chessProgram/src/pieceUtilities/King.java:79-103 | a destination without check is safe and holds no own piece; one two or more files away has the castling right, an unblocked king-to-rook path and a safe target rook square; every destination under check is one without check |
| Kings.NoCastlingInCheck | workspace/chessProgram/src/pieceUtilities/King.java:105-113 | under one check the destinations are those under two checks, and none of those is two or more files away |
| Pawns.PossibleNonCaptureMoves | workspace/chessProgram/src/pieceUtilities/Pawn.java:54-67 | the targets, at most 4, are exactly the push square, the double push from the start rank and the side neighbours on the en passant rank, nulls dropped |
| Pawns.DirectionsToMoveIn | workspace/chessProgram/src/pieceUtilities/Pawn.java:38-41 | three directions, all one rank forward for the colour: the left capture diagonal, the right one and the push |
| Pawns.DirectionFromCenter | workspace/chessProgram/src/pieceUtilities/Pawn.java:77-83 | the direction has the sign of the file difference; a move that changes rank keeps its true direction, and a sideways one (en passant) is turned forward |
| Pawns.NonCaptureDirections | workspace/chessProgram/src/pieceUtilities/Pawn.java:77-83 | each non-capture target is seen in one of the pawn's three directions: the push exactly when on the same file, and a same-rank target along the capture diagonal towards it |
| Pawns.PossibleSquaresToThreaten | workspace/chessProgram/src/pieceUtilities/Pawn.java:91-96 | the threatened squares are exactly the existing left and right capture neighbours |
| Pawns.ThreatenedExactly | workspace/chessProgram/src/pieceUtilities/Pawn.java:91-96 | a square is threatened exactly when it is one push rank ahead and one file to the side |
| Pawns.ValidPawnMoveKinds | workspace/chessProgram/src/pieceUtilities/Pawn.java:131-138 | a move is valid exactly when it is a same-rank move onto the unpinned en passant file, a same-file move onto an empty square, or a diagonal move onto an enemy piece |
| Pawns.ValidatePawnMove | workspace/chessProgram/src/pieceUtilities/Pawn.java:131-138 | a valid sideways move is onto the en passant file; a valid move changing rank keeps the file exactly when its target is empty, and an occupied target holds no piece of the pawn's colour |
| Pawns.IsMovementAllowed | workspace/chessProgram/src/pieceUtilities/Pawn.java:141-143 | a blocked path is never allowed, and an allowed move along the file that changes rank lands on an empty square |
| Pawns.AddSquareToListOfMoves | workspace/chessProgram/src/pieceUtilities/Pawn.java:146-152 | the scan stops exactly at an occupied square on the same file; a valid target is appended otherwise and nothing else changes |
| Pawns.NoCaptureAlongFile | workspace/chessProgram/src/pieceUtilities/Pawn.java:137 | a valid forward move along the file lands on an empty square |
| Pawns.PromotionMoves | workspace/chessProgram/src/pieceUtilities/Pawn.java:104-116 | each target square becomes four moves |
| Pawns.PromotionMovesAt | workspace/chessProgram/src/pieceUtilities/Pawn.java:112-114 | the k-th move of the i-th target promotes to the k-th promotion piece, with the type inferred for that target |
| Pawns.ConvertSquaresToMoves | workspace/chessProgram/src/pieceUtilities/Pawn.java:100-117 | off the seventh rank each target is one move without promotion; from it, the call throws exactly when a target's type is not a promotion, and otherwise gives the four promotions of each target |
| Pawns.PromotionMovesPromote | workspace/chessProgram/src/pieceUtilities/Pawn.java:104-116 | every move from the seventh rank starts on the square, ends on a target and promotes to a promotion piece |
| MoveMaking.PositionBuilder.FromPosition | workspace/chessProgram/src/representation/MoveMaker.java:35 | the builder starts from exactly the given position |
| MoveMaking.PositionBuilder.WithPieceAtSquare | workspace/chessProgram/src/representation/MoveMaker.java:107-108 | only the given square changes, to the given piece |
| MoveMaking.PositionBuilder.WithCastlingRight | workspace/chessProgram/src/representation/MoveMaker.java:69 | only the given right changes, to allowed or not as asked |
| MoveMaking.PositionBuilder.WithEnPassant | workspace/chessProgram/src/representation/MoveMaker.java:37 | only the en passant file changes, to the given file or none |
| MoveMaking.PositionBuilder.WithColorToMove | workspace/chessProgram/src/representation/MoveMaker.java:83 | only the colour to move changes |
| MoveMaking.PositionBuilder.WithLastMove | workspace/chessProgram/src/representation/MoveMaker.java:83 | only the last move changes, to the given move |
| MoveMaking.PositionBuilder.RevokeRights | workspace/chessProgram/src/representation/MoveMaker.java:68-69 | only the given rights are removed; nothing else changes |
| MoveMaking.PositionBuilder.SwitchSquares | workspace/chessProgram/src/representation/MoveMaker.java:105-109 | the end square gets the mover's piece of the given type and then the start square is emptied; nothing else changes |
| MoveMaking.Switched | workspace/chessProgram/src/representation/MoveMaker.java:105-109 | the start square ends empty, the end square (when different) holds the mover's piece, every other square is kept |
| MoveMaking.PerformMove | workspace/chessProgram/src/representation/MoveMaker.java:31-84 | a move outside the legal moves gives null; any other gives the position after that move |
| MoveMaking.MovePieces | workspace/chessProgram/src/representation/MoveMaker.java:39-73 | the switch on the moving piece places the pieces as the move does, removes a king's or rook's rights at its start square, and opens en passant only after a double push; nothing else changes |
| MoveMaking.MovePawn | workspace/chessProgram/src/representation/MoveMaker.java:40-57 | a pawn captures en passant, promotes, or moves and opens en passant exactly when it advances two ranks; nothing else changes |
| MoveMaking.UntouchedSquaresKept | workspace/chessProgram/src/representation/MoveMaker.java:31-84 | every square the move does not touch keeps its piece |
| MoveMaking.EnPassantPlacement | workspace/chessProgram/src/representation/MoveMaker.java:42-47 | en passant empties the start square and the captured pawn's square and puts the pawn on its destination |
| MoveMaking.PromotionPlacement | workspace/chessProgram/src/representation/MoveMaker.java:48-50 | a promotion empties the start square and puts the promotion piece, not the pawn, on the end square |
| MoveMaking.CastlePlacement | workspace/chessProgram/src/representation/MoveMaker.java:59-73 | castling moves the king and also moves the rook from its square to its target square |
| MoveMaking.OrdinaryPlacement | workspace/chessProgram/src/representation/MoveMaker.java:70-73 | any other move empties the start square and puts the moving piece on the end square |
| MoveMaking.EnPassantOnlyAfterDoublePush | workspace/chessProgram/src/representation/MoveMaker.java:37-55 | the next position has an en passant file exactly after a two-rank pawn push, and it is the start file |
| MoveMaking.OrdinalInjective | workspace/chessProgram/src/representation/MoveMaker.java:105-109 | two squares have the same index in the placement exactly when they are the same square |
| MoveGeneration.OwnPieces | workspace/chessProgram/src/immutableArrayBoard/ImmutableArrayMoveGenerator.java:56-57 | one piece per type, in type order, each of the side to move and of that type |
| MoveGeneration.SquaresPerType | workspace/chessProgram/src/immutableArrayBoard/ImmutableArrayMoveGenerator.java:68 | one list of squares per piece type |
| MoveGeneration.MovesOfExactly | workspace/chessProgram/src/immutableArrayBoard/ImmutableArrayMoveGenerator.java:69 | a move is collected exactly when it is a legal move of one of the given squares |
| MoveGeneration.DoubleCheckOnlyKing | workspace/chessProgram/src/immutableArrayBoard/ImmutableArrayMoveGenerator.java:67-69 | with more than one check the moves are exactly the king square's legal moves |
| MoveGeneration.AllPiecesMove | workspace/chessProgram/src/immutableArrayBoard/ImmutableArrayMoveGenerator.java:67-69 | with at most one check the moves are exactly the legal moves of the squares of every own piece type |
| MoveGeneration.ImmutableArrayMoveGenerator.constructor | workspace/chessProgram/src/immutableArrayBoard/ImmutableArrayMoveGenerator.java:33-46 | a new generator has calculated nothing yet |
| MoveGeneration.ImmutableArrayMoveGenerator.CalculateMoves | workspace/chessProgram/src/immutableArrayBoard/ImmutableArrayMoveGenerator.java:49-61 | the fields record the board, its checks and side to move; without an own king the call throws; otherwise the king square is the first one listed, and the result is the set of moves realized, when every piece's guard passes |
| MoveGeneration.ImmutableArrayMoveGenerator.RealizeMoves | workspace/chessProgram/src/immutableArrayBoard/ImmutableArrayMoveGenerator.java:66-70 | the legal moves of the chosen squares are appended, when every piece's guard passes; the other fields are kept |
| MoveGeneration.ImmutableArrayMoveGenerator.AddMovesOf | workspace/chessProgram/src/immutableArrayBoard/ImmutableArrayMoveGenerator.java:69 | the legal moves of each square are appended in order, exactly when every piece's guard passes |
| MoveGeneration.ImmutableArrayMoveGenerator.IsInCheck | workspace/chessProgram/src/immutableArrayBoard/ImmutableArrayMoveGenerator.java:72-78 | before moves are calculated the call throws; afterwards it says whether there are checks |
| Utilities.RangeSeq | workspace/chessProgram/src/support/UtilityFunctions.java:32-38 | the range has end - start elements, the i-th being start + i |
| Utilities.Range | workspace/chessProgram/src/support/UtilityFunctions.java:47-53 | a negative size fails; otherwise the array holds start up to end - 1 in order |
| Utilities.JavaAbs | workspace/chessProgram/src/support/UtilityFunctions.java:61 | Math.abs agrees with the absolute value except on the least 32-bit integer |
| Utilities.SignAsWrittenOfMinValue | workspace/chessProgram/src/support/UtilityFunctions.java:60-62 | the sign as written of the least 32-bit integer is 1, not -1 |
| Utilities.SignAsWritten | workspace/chessProgram/src/support/UtilityFunctions.java:60-62 | as written, the result is -1, 0 or 1, zero exactly for 0, and 1 for every positive value |
| Utilities.Sign | workspace/chessProgram/src/support/UtilityFunctions.java:60-62 | the sign is 0, 1 or -1 exactly for zero, positive and negative values |
| Utilities.SignAsWrittenAgrees | workspace/chessProgram/src/support/UtilityFunctions.java:60-62 | on every other 32-bit value the sign as written is the sign |
| Utilities.PerfectSquaresExactly | workspace/chessProgram/src/support/UtilityFunctions.java:69-84 | the listed numbers are exactly the squares of 0 to 8 |
| Utilities.ReverseInvolution | workspace/chessProgram/src/support/CollectionUtilityFunctions.java:20-24 | reversing a list twice gives the list back |
| Utilities.ValueFromArray | workspace/chessProgram/src/support/CollectionUtilityFunctions.java:32-34 | an ordinal inside the array gives the entry at that ordinal; any other fails |
| Utilities.Concat | workspace/chessProgram/src/support/CollectionUtilityFunctions.java:43-58 | the loop over the iterators yields the round-robin interleaving of the lists |
| Utilities.NextRound | workspace/chessProgram/src/support/CollectionUtilityFunctions.java:54-57 | one pass of the inner loop appends the next element of every iterator, in order, and keeps exactly the iterators that have more |
| Utilities.ConcatIsPermutation | workspace/chessProgram/src/support/CollectionUtilityFunctions.java:43-58 | the interleaving holds every element of every list, as often as the lists do, and nothing else |
| Utilities.SizeOfAll | workspace/chessProgram/src/support/CollectionUtilityFunctions.java:43-58 | the elements of all the lists number their total length |
| Utilities.NonNull | workspace/chessProgram/src/support/CollectionUtilityFunctions.java:76-78 | an element is kept exactly when it is present (non-null) in the input |
| Utilities.NonNullDistributes | workspace/chessProgram/src/support/CollectionUtilityFunctions.java:76-78 | dropping absent elements of two joined lists is joining the lists with them dropped |
| Utilities.IsEmptyAsWritten | workspace/chessProgram/src/support/UtilityFunctions.java:220-222 | as written, the test throws exactly for null (`null.equals("")`) |
| Utilities.IsEmptyAsWrittenInverted | workspace/chessProgram/src/support/UtilityFunctions.java:220-222 | as written, "e4" counts as empty though it is not, and null throws though it is empty |
| Utilities.IsEmpty | workspace/chessProgram/src/support/UtilityFunctions.java:215-219 | the documented test: true exactly for null or a string without characters |
| Utilities.IsEmptyAsWrittenNegates | workspace/chessProgram/src/support/UtilityFunctions.java:220-222 | on every non-null string but the empty one, the test as written answers the negation of emptiness |
| Utilities.SortTwoElementsAsWritten | workspace/chessProgram/src/support/UtilityFunctions.java:159-166 | a list of other than two elements fails unchanged; two are swapped only when the comparison exceeds 1 |
| Utilities.SortTwoElementsAsWrittenLeavesUnsorted | workspace/chessProgram/src/support/UtilityFunctions.java:163 | [2, 1] compared by sign is left unsorted |
| Utilities.SortTwoElements | workspace/chessProgram/src/support/UtilityFunctions.java:159-166 | a list of other than two elements fails unchanged; two are left a permutation in order under an antisymmetric comparator |
| FixedOrderingSets.IndexIn | workspace/chessProgram/src/independentDataStructures/FixedOrderingSet.java:31 | the index of a member is the position holding it, and only members have one |
| FixedOrderingSets.FixedOrderingSet.RetrieveOffset | workspace/chessProgram/src/independentDataStructures/FixedOrderingSet.java:31 | there is a result exactly when the element is a member and its position plus the offset lies inside the set; the result stands at that position |
| FixedOrderingSets.FixedOrderingSet.Floor | workspace/chessProgram/src/independentDataStructures/FixedOrderingSet.java:93-96 | a member is its own floor; any other element has its lower one |
| FixedOrderingSets.FixedOrderingSet.Ceiling | workspace/chessProgram/src/independentDataStructures/FixedOrderingSet.java:98-101 | a member is its own ceiling; any other element has its higher one |
| FixedOrderingSets.FixedOrderingSet.First | workspace/chessProgram/src/independentDataStructures/FixedOrderingSet.java:121-124 | null exactly for the empty set; otherwise the element at position 0 |
| FixedOrderingSets.FixedOrderingSet.Last | workspace/chessProgram/src/independentDataStructures/FixedOrderingSet.java:126-129 | null exactly for the empty set; otherwise the element at position size - 1 |
| FixedOrderingSets.FixedOrderingSet.Poll | workspace/chessProgram/src/independentDataStructures/FixedOrderingSet.java:131-139 | removing always fails |
| FixedOrderingSets.FixedOrderingSet.Neighbors | workspace/chessProgram/src/independentDataStructures/FixedOrderingSet.java:54-56 | the neighbours are exactly the lower and the higher element that exist |
| FixedOrderingSets.FixedOrderingSet.SubSet | workspace/chessProgram/src/independentDataStructures/FixedOrderingSet.java:157-165 | a subset exists exactly between two members in order |
| FixedOrderingSets.LowerHigherInverse | workspace/chessProgram/src/independentDataStructures/FixedOrderingSet.java:75-106 | d is lower than e exactly when e is higher than d |
| FixedOrderingSets.FirstAndLastAreEnds | workspace/chessProgram/src/independentDataStructures/FixedOrderingSet.java:121-129 | nothing is lower than the first element nor higher than the last |
| FixedOrderingSets.SubSetByIndex | workspace/chessProgram/src/independentDataStructures/FixedOrderingSet.java:157-170 | the subset between two members is the slice between their positions, ends included as asked |
| FixedOrderingSets.HeadSetIsPrefix | workspace/chessProgram/src/independentDataStructures/FixedOrderingSet.java:157-160 | the head set of a member is the prefix up to it |
| FixedOrderingSets.TailSetIsSuffix | workspace/chessProgram/src/independentDataStructures/FixedOrderingSet.java:162-165 | the tail set of a member is the suffix from it |
| FixedOrderingSets.NearestAtOrBelow | workspace/chessProgram/src/independentDataStructures/FixedOrderingSet.java:86-91 | the reference search downwards: the element at the greatest position up to a bound that is not excluded, a member outside the exclusions |
| FixedOrderingSets.NearestAtOrAbove | workspace/chessProgram/src/independentDataStructures/FixedOrderingSet.java:114-119 | the reference search upwards: the element at the least position from a bound on that is not excluded, a member outside the exclusions |
| FixedOrderingSets.LowerExcluding | workspace/chessProgram/src/independentDataStructures/FixedOrderingSet.java:86-91 | the do-while loop gives `NearestBelow`: the nearest lower member outside the excluded set; none means every lower member is excluded |
| FixedOrderingSets.HigherExcluding | workspace/chessProgram/src/independentDataStructures/FixedOrderingSet.java:114-119 | the do-while loop gives `NearestAbove`: the nearest higher member outside the excluded set; none means every higher member is excluded |
| FixedOrderingSets.NeighborsExcluding | workspace/chessProgram/src/independentDataStructures/FixedOrderingSet.java:45-47 | the nearest non-excluded member below and the one above, in that order, without the missing ones; each a member, not excluded and not the element |
| FixedOrderingSets.ThirdInSequence | workspace/chessProgram/src/independentDataStructures/FixedOrderingSet.java:64-73 | equal elements fail; others give the next element on |
| FixedOrderingSets.ThirdContinuesDirection | workspace/chessProgram/src/independentDataStructures/FixedOrderingSet.java:64-73 | the third element is one step further in the direction from the first to the second |
| FixedOrderingSets.DescendingIterator.constructor | workspace/chessProgram/src/independentDataStructures/FixedOrderingSet.java:142-144 | the iterator starts past the last element |
| FixedOrderingSets.DescendingIterator.HasNext | workspace/chessProgram/src/independentDataStructures/FixedOrderingSet.java:146-148 | more elements exactly while the index is positive |
| FixedOrderingSets.DescendingIterator.Next | workspace/chessProgram/src/independentDataStructures/FixedOrderingSet.java:151-153 | the index steps back by one and its element is returned |
| FixedOrderingSets.DrainDescending | workspace/chessProgram/src/independentDataStructures/FixedOrderingSet.java:141-155 | draining the descending iterator gives the elements in reverse order |
| BreadthFirst.Unvisited | workspace/chessProgram/src/dataStructures/BreadthFirstTraversal.java:46-51 | the neighbours added are exactly those not yet visited, each once |
| BreadthFirst.UnvisitedStep | workspace/chessProgram/src/dataStructures/BreadthFirstTraversal.java:46-51 | one more neighbour is added exactly when it is neither visited nor seen earlier in the list |
| BreadthFirst.BreadthFirstTraversal.constructor | workspace/chessProgram/src/dataStructures/BreadthFirstTraversal.java:27-33 | the start nodes are queued and visited; distinct start nodes give no repeats |
| BreadthFirst.BreadthFirstTraversal.HasNext | workspace/chessProgram/src/dataStructures/BreadthFirstTraversal.java:37-40 | more elements exactly while the queue is not empty |
| BreadthFirst.BreadthFirstTraversal.Next | workspace/chessProgram/src/dataStructures/BreadthFirstTraversal.java:42-53 | the head of the queue is returned and its unvisited neighbours queued and visited; no element is ever returned twice |
| BreadthFirst.BreadthFirstTraversal.Enqueue | workspace/chessProgram/src/dataStructures/BreadthFirstTraversal.java:46-51 | the neighbours become visited and the unvisited ones are queued in order |
| BreadthFirst.DistinctAppend | workspace/chessProgram/src/dataStructures/BreadthFirstTraversal.java:46-51 | queueing only unvisited elements keeps the queue free of repeats |
| BreadthFirst.TwoSteps | workspace/chessProgram/src/dataStructures/BreadthFirstTraversal.java:42-53 | two calls return the first two queued elements in order |
| FixedSizeLists.WalkMeasureDecreases | workspace/chessProgram/src/moves/FixedSizeList.java:33 | each step of the walk brings it closer to the board edge |
| FixedSizeLists.WalkStaysOnLine | workspace/chessProgram/src/moves/FixedSizeList.java:33-35 | the i-th square of the walk is i steps from its start in the walk direction |
| FixedSizeLists.OrdinalsAppend | workspace/chessProgram/src/moves/FixedSizeList.java:34 | marking one more square adds its index |
| FixedSizeLists.FixedSizeList.constructor | workspace/chessProgram/src/moves/FixedSizeList.java:20-23 | the list is empty with room for the given size |
| FixedSizeLists.FixedSizeList.Contains | workspace/chessProgram/src/moves/FixedSizeList.java:43-45 | an empty array fails; otherwise true exactly when the slot the table gives is in use and holds the square |
| FixedSizeLists.FixedSizeList.Add | workspace/chessProgram/src/moves/FixedSizeList.java:25-40 | a full list or a walk that runs off the board fails; otherwise the square is appended and it and every square walked to are indexed to it, nothing else |
| FixedSizeLists.FixedSizeList.MarkWalk | workspace/chessProgram/src/moves/FixedSizeList.java:33-35 | the squares walked to are indexed to the current size and no others change |
| FixedSizeLists.FixedSizeList.GetNeighbor | workspace/chessProgram/src/moves/FixedSizeList.java:47-72 | empty gives null, a zero difference the square; for a member, the entry that far from its index, or null off the ends; a non-member after the first square counts as just past the end (nothing after it, the last squares before it); any other non-member counts from its stale table slot, one less going up |
| FixedSizeLists.NewFixedSizeList | workspace/chessProgram/src/moves/FixedSizeList.java:20-23 | a negative size fails; otherwise an empty list of that capacity walking in the opposite of the given direction |
| FixedSizeLists.AddThenContains | workspace/chessProgram/src/moves/FixedSizeList.java:25-45 | a square added is then contained |
| AlgebraicNotation.LetterAndDigitRoundTrip | workspace/chessProgram/src/stringUtilities/MoveParser.java:181-185 | the file letter and rank digit of each coordinate are read back to it |
| AlgebraicNotation.PieceOf | workspace/chessProgram/src/stringUtilities/MoveParser.java:180 | each piece letter names the piece type with that letter, never the pawn, and a promotion letter a promotion piece |
| AlgebraicNotation.ParseGroupsRender | workspace/chessProgram/src/stringUtilities/MoveParser.java:181-183 | the optional start file, start rank and capture groups are read back from their text |
| AlgebraicNotation.RenderGroupsParse | workspace/chessProgram/src/stringUtilities/MoveParser.java:181-183 | text read as those groups is exactly their text |
| AlgebraicNotation.ParsePieceRender | workspace/chessProgram/src/stringUtilities/MoveParser.java:179-185 | the text of a piece move is matched by the piece-move alternative, back to the same groups |
| AlgebraicNotation.ParsePawnRender | workspace/chessProgram/src/stringUtilities/MoveParser.java:187-196 | the text of a pawn move is matched by the pawn-move alternative, back to the same groups |
| AlgebraicNotation.ParseRender | workspace/chessProgram/src/stringUtilities/MoveParser.java:176-209 | the text of any well-formed move is matched back to it |
| AlgebraicNotation.RenderParsePiece | workspace/chessProgram/src/stringUtilities/MoveParser.java:179-185 | whatever the piece-move alternative matches is well formed and is the text of what it matched |
| AlgebraicNotation.RenderParsePawn | workspace/chessProgram/src/stringUtilities/MoveParser.java:187-196 | whatever the pawn-move alternative matches is well formed and is the text of what it matched |
| AlgebraicNotation.RenderParse | workspace/chessProgram/src/stringUtilities/MoveParser.java:176-209 | whatever the pattern body matches is well formed and is the text of what it matched |
| AlgebraicNotation.TrimLeft | workspace/chessProgram/src/stringUtilities/MoveParser.java:178 | leading white space is dropped and the rest starts with no white space |
| AlgebraicNotation.TrimRight | workspace/chessProgram/src/stringUtilities/MoveParser.java:200 | trailing white space is dropped and the rest ends with no white space |
| AlgebraicNotation.DropSuffix | workspace/chessProgram/src/stringUtilities/MoveParser.java:200 | one trailing check or annotation mark is dropped, and nothing else |
| AlgebraicNotation.PawnCheckRefusedAsWritten | workspace/chessProgram/src/stringUtilities/MoveParser.java:186-200 | as written, every pawn move followed by a check, mate or annotation mark (such as "e4+") matches nothing; as intended it is that pawn move |
| AlgebraicNotation.PieceCheckRefusedAsWritten | workspace/chessProgram/src/stringUtilities/MoveParser.java:178-186 | as written, every piece move followed by such a mark (such as "Nf3+") matches nothing; as intended it is that piece move |
| AlgebraicNotation.PawnAfterSpaceRefusedAsWritten | workspace/chessProgram/src/stringUtilities/MoveParser.java:178-197 | as written, every pawn move after white space (such as " e4") matches nothing; as intended it is that pawn move |
| AlgebraicNotation.TrimLeftSkipsSpaces | workspace/chessProgram/src/stringUtilities/MoveParser.java:178 | white space before a text is all dropped |
| AlgebraicNotation.TrimRightSkipsSpaces | workspace/chessProgram/src/stringUtilities/MoveParser.java:200 | white space after a text is all dropped |
| AlgebraicNotation.RenderEnds | workspace/chessProgram/src/stringUtilities/MoveParser.java:176-209 | a move's text is at least two characters and begins and ends in no white space and ends in no suffix mark |
| AlgebraicNotation.MatchDecorated | workspace/chessProgram/src/stringUtilities/MoveParser.java:176-209 | a move's text with leading and trailing white space and one suffix mark is matched back to the move |
| AlgebraicNotation.MatchAsWritten | workspace/chessProgram/src/stringUtilities/MoveParser.java:176-200 | as written, whatever the pattern accepts, the intended pattern accepts too and reads as the same move (the written pattern is only stricter) |
| AlgebraicNotation.MatchAsWrittenOnBareMoves | workspace/chessProgram/src/stringUtilities/MoveParser.java:176-209 | on undecorated move text the pattern as written and as intended both match it back |
| MoveWriting.MovesTo | workspace/chessProgram/src/stringUtilities/MoveWriter.java:37-49 | the moves listed for a piece type and end square are exactly the moves of that type to that square |
| MoveWriting.MovesToAppend | workspace/chessProgram/src/stringUtilities/MoveWriter.java:39-47 | one more move is appended to the list of its own type and end square only |
| MoveWriting.MapEndSquaresToMovesForPieces | workspace/chessProgram/src/stringUtilities/MoveWriter.java:37-49 | every key pair holds, in order, the non-empty list of moves of that piece type to that square, and every such list has its keys |
| MoveWriting.MapsEndSquaresStep | workspace/chessProgram/src/stringUtilities/MoveWriter.java:40-46 | adding one move to its list keeps the map exact for the longer move list |
| MoveWriting.PlacedUnderItsKey | workspace/chessProgram/src/stringUtilities/MoveWriter.java:37-49 | a move is in the map exactly under its own piece type and end square |
| MoveWriting.DisambiguationSeparates | workspace/chessProgram/src/stringUtilities/MoveWriter.java:58-84 | the written start file and rank rule out every candidate from another square; nothing is written without another candidate; a rank only for another on the same file; a file only for some other candidate |
| MoveWriting.DisambiguationFlags | workspace/chessProgram/src/stringUtilities/MoveWriter.java:59-82 | the loop over the candidates sets the file and rank flags of the disambiguation rule |
| MoveWriting.PieceText | workspace/chessProgram/src/stringUtilities/MoveWriter.java:99 | as intended (see "## Findings"): the pawn is written as nothing, any other piece as its letter |
| MoveWriting.MoveText | workspace/chessProgram/src/stringUtilities/MoveWriter.java:94-114 | as intended, with the piece's letter: a castle is written "0-0" exactly on the kingside and "0-0-0" otherwise |
| MoveWriting.PieceMoveText | workspace/chessProgram/src/stringUtilities/MoveWriter.java:94-114 | a piece move's text is the notation of its piece, written start file and rank, capture and end square |
| MoveWriting.PawnMoveText | workspace/chessProgram/src/stringUtilities/MoveWriter.java:94-114 | a pawn move's text is the notation of its capture file, end square and promotion piece |
| MoveWriting.CaptureAndPromotionMarks | workspace/chessProgram/src/stringUtilities/MoveWriter.java:106-112 | the text holds 'x' exactly for a capture and '=' exactly for a promotion |
| MoveWriting.KnightMoveWrittenAsName | workspace/chessProgram/src/stringUtilities/MoveWriter.java:99 | as written, the knight's move to f3 reads "knightf3", which the parser cannot match; as intended it reads "Nf3" and matches |
| MoveWriting.MoveTextAsWritten | workspace/chessProgram/src/stringUtilities/MoveWriter.java:94-114 | as written, a castle is the intended text; any other move begins with the English name of its piece, pawns included, and without promotion is that name followed by the intended text after its letter |
| MoveWriting.GetMoveAsString | workspace/chessProgram/src/stringUtilities/MoveWriter.java:58-84 | a move with no list in the map fails; otherwise its text with the disambiguation of its list |
| MoveWriting.GetMoveAsStringInContext | workspace/chessProgram/src/stringUtilities/MoveWriter.java:26-29 | a legal move gets its text in the context of the legal moves; failure exactly when no legal move shares its piece type and end square |
| MoveParsing.Candidates | workspace/chessProgram/src/stringUtilities/MoveParser.java:147-157 | the candidates are exactly the legal moves the parsed text describes |
| MoveParsing.ReadGroups | workspace/chessProgram/src/stringUtilities/MoveParser.java:80-133 | the named groups set the piece, start file and rank, end square, capture and promotion of the reading |
| MoveParsing.ParseAlgebraicNotation | workspace/chessProgram/src/stringUtilities/MoveParser.java:68-170 | text the intended pattern does not match gives null; otherwise the one fitting candidate whose capture flag agrees, or null |
| MoveParsing.ParsedIsLegal | workspace/chessProgram/src/stringUtilities/MoveParser.java:68-170 | a parsed move is a legal move the text describes, capture flag included |
| MoveParsing.ParseExactlyOne | workspace/chessProgram/src/stringUtilities/MoveParser.java:147-170 | among distinct legal moves the text parses to m exactly when m is the only legal move it describes and their capture flags agree |
| MoveParsing.ParsedCastle | workspace/chessProgram/src/stringUtilities/MoveParser.java:89-97 | a castle text gives the king's move from its start square to the target square of the right of the side to move, queenside exactly with three letters |
| MoveParsing.ParsedPawnPush | workspace/chessProgram/src/stringUtilities/MoveParser.java:113-133 | a pawn text without 'x' gives a non-capture from the end file with the written promotion |
| NotationRoundTrip.ParsedWhenOnlyOne | workspace/chessProgram/src/stringUtilities/MoveParser.java:147-170 | text describing m and no other start square parses to m |
| NotationRoundTrip.PieceMoveRoundTrip | workspace/chessProgram/src/stringUtilities/MoveWriter.java:58-114 | the text written for a legal piece move parses back to that move |
| NotationRoundTrip.CastleRoundTrip | workspace/chessProgram/src/stringUtilities/MoveWriter.java:95-97 | the text written for a legal castle parses back to that move |
| NotationRoundTrip.PawnMoveRoundTrip | workspace/chessProgram/src/stringUtilities/MoveWriter.java:94-114 | the text written for a legal pawn move that no other pawn move to its square shares parses back to that move |
| FenWriting.DigitChar | workspace/chessProgram/src/stringUtilities/FENStringWriter.java:98 | the character written for a count is the decimal digit of that count |
| FenWriting.FenChar | workspace/chessProgram/src/stringUtilities/FENStringWriter.java:82 | a piece is written as one character that is no digit, slash or space |
| FenWriting.EmptyCount | workspace/chessProgram/src/stringUtilities/FENStringWriter.java:96-100 | no empty squares write nothing; otherwise the one non-zero digit of the count |
| FenWriting.Cells | workspace/chessProgram/src/stringUtilities/FENStringWriter.java:76-78 | the eight pieces of a rank, file by file |
| FenWriting.Scan | workspace/chessProgram/src/stringUtilities/FENStringWriter.java:74-89 | a rank's text holds no '0', space or slash |
| FenWriting.Nones | workspace/chessProgram/src/stringUtilities/FENStringWriter.java:96-100 | a count expands to that many empty squares |
| FenWriting.ExpandAppend | workspace/chessProgram/src/stringUtilities/FENStringWriter.java:74-89 | expanding joined texts joins their expansions |
| FenWriting.ExpandEmptyCount | workspace/chessProgram/src/stringUtilities/FENStringWriter.java:96-100 | the count written for empty squares expands back to that many empty squares |
| FenWriting.ScanExpands | workspace/chessProgram/src/stringUtilities/FENStringWriter.java:74-89 | the text written from a pending count and the rest of a rank expands back to that many empty squares followed by the rank's occupants |
| FenWriting.RankTextReadsBack | workspace/chessProgram/src/stringUtilities/FENStringWriter.java:74-89 | a rank's text expands back to its eight squares, empty exactly where no piece stands and otherwise the piece's character |
| FenWriting.JoinStep | workspace/chessProgram/src/support/UtilityFunctions.java:230-240 | each further part is preceded by the separator, the first by nothing |
| FenWriting.SplitJoin | workspace/chessProgram/src/support/UtilityFunctions.java:230-240 | parts without the separator are split back from their joining |
| FenWriting.Ranks | workspace/chessProgram/src/stringUtilities/FENStringWriter.java:63-66 | the position lists the ranks from 8 down to 1 |
| FenWriting.PositionSplitsIntoRanks | workspace/chessProgram/src/stringUtilities/FENStringWriter.java:63-66 | the position field splits at '/' back into the eight rank texts, and holds no space |
| FenWriting.RightsLetters | workspace/chessProgram/src/stringUtilities/FENStringWriter.java:116-124 | the letters written are exactly those of the allowed rights |
| FenWriting.CastlingTextNamesRights | workspace/chessProgram/src/stringUtilities/FENStringWriter.java:116-139 | a right's letter is written exactly when it is allowed; '-' exactly when none is |
| FenWriting.EnPassantText | workspace/chessProgram/src/stringUtilities/FENStringWriter.java:146-153 | '-' exactly without an en passant file; otherwise the name of its destination square for the side to move |
| FenWriting.NatText | workspace/chessProgram/src/stringUtilities/FENStringWriter.java:161 | a count is written as a non-empty string of digits |
| FenWriting.NatTextValue | workspace/chessProgram/src/stringUtilities/FENStringWriter.java:161 | the digits written for a count read back to it |
| FenWriting.IntTextReadsBack | workspace/chessProgram/src/stringUtilities/FENStringWriter.java:160-170 | the decimal text of any integer reads back to it |
| FenWriting.Fields | workspace/chessProgram/src/stringUtilities/FENStringWriter.java:25-27 | six fields, one per action |
| FenWriting.FenFields | workspace/chessProgram/src/stringUtilities/FENStringWriter.java:39-47 | the FEN text splits at spaces into its six fields; the position splits into the ranks; the ply count and move number read back |
| FenWriting.FENStringWriter.constructor | workspace/chessProgram/src/stringUtilities/FENStringWriter.java:39-47 | the builder holds the six fields joined by single spaces |
| FenWriting.FENStringWriter.RunAction | workspace/chessProgram/src/stringUtilities/FENStringWriter.java:25-27 | the k-th action appends the k-th field |
| FenWriting.FENStringWriter.MakeFEN | workspace/chessProgram/src/stringUtilities/FENStringWriter.java:54-56 | the text built |
| FenWriting.FENStringWriter.AddPosition | workspace/chessProgram/src/stringUtilities/FENStringWriter.java:63-66 | appends the ranks from 8 down to 1 joined by '/' |
| FenWriting.FENStringWriter.AddRankOfPosition | workspace/chessProgram/src/stringUtilities/FENStringWriter.java:64-65 | appends the separator, except before rank 8, then the rank's text |
| FenWriting.FENStringWriter.AddFENForRank | workspace/chessProgram/src/stringUtilities/FENStringWriter.java:74-89 | appends the rank's text |
| FenWriting.FENStringWriter.AddSquare | workspace/chessProgram/src/stringUtilities/FENStringWriter.java:77-85 | one square of the loop keeps the text to come equal to the rank's text |
| FenWriting.FENStringWriter.AddEmptySquares | workspace/chessProgram/src/stringUtilities/FENStringWriter.java:96-100 | appends the count of empty squares, or nothing for none |
| FenWriting.FENStringWriter.AddColorToMove | workspace/chessProgram/src/stringUtilities/FENStringWriter.java:107-109 | appends the letter of the side to move |
| FenWriting.FENStringWriter.AddCastlingRights | workspace/chessProgram/src/stringUtilities/FENStringWriter.java:116-124 | appends the castling field |
| FenWriting.FENStringWriter.AddCastlingRight | workspace/chessProgram/src/stringUtilities/FENStringWriter.java:133-139 | tells whether the right is allowed and appends its letter exactly then |
| FenWriting.FENStringWriter.AddEnPassantRights | workspace/chessProgram/src/stringUtilities/FENStringWriter.java:146-153 | appends the en passant field |
| FenWriting.FENStringWriter.AddPliesSinceChange | workspace/chessProgram/src/stringUtilities/FENStringWriter.java:160-162 | appends the decimal ply count |
| FenWriting.FENStringWriter.AddMoveNumber | workspace/chessProgram/src/stringUtilities/FENStringWriter.java:168-170 | appends the decimal move number |

## Left out

- I/O and orchestration: `gamePlaying/Game.java`, `UserInput.java` and `Computer.java` (turn loop, console, exit) are not part of this model.
- Floating point: `search/BasicDepthBasedMinimax.java` and `gamePlaying/GameState.java` (double-valued evaluation, minimax over hash codes) are not part of this model.
- Randomness: `hashing/PseudoRandomNumbers.java` uses `java.util.Random` and is not part of this model.
- Console rendering: both `BoardStringifier.java` files are left out as UI.
- Configuration: `support/Constants.java` and `support/Constructors.java` are left out. They hold system properties, the stdin reader and the wiring of implementations.
- `stringUtilities/PGNParser.java` is left out: it does file I/O and both of its bodies are stubs.
- `ImmutableArrayBoard.performMove` (ImmutableArrayBoard.java:82-87) is left out: it is a stub that returns an unchanged copy of the board. Moves are performed by `MoveMaking.PerformMove`, the model of `MoveMaker`.
- `support/FunctionalUtilityFunctions.java` and the `identity`, `bind`, `bindAtEnd` and `xor` helpers of `UtilityFunctions.java` are closure glue. `joinActions` is modelled only where the FEN writer uses it, as `FenWriting.Join`.
- `moveCalculationStructures/OutwardLinePortions.java` depends on `ListBackedByMaps` and `Square.whichIsCloser`, which are not part of this model.
- `pieceUtilities/Queen.java`, `pieces/King.java` and `pieces/Rook.java` are trivial or return null; they are left out.
- Interfaces: `Board`, `BoardBuilder`, `State`, `Move`, `ProcessedBoard` and `ImportantSquareList` enter only as the answers they give. `ProcessedBoard` is modelled by `ProcessedBoards.ProcessedBoard`. The position and its builder are modelled by `MoveMaking.Position` and `MoveMaking.PositionBuilder`.
- `Square.java`, `Color.java`, `CastlingRights.java`, `MoveType.java`, `Line.java`, `LineType.java`, `Ring.java` and `lines/Rank.java` are not part of this model. The model assumes:
  - standard chess values for them;
  - a square ordinal of file * 8 + rank;
  - colour letters 'w' and 'b';
  - rank readable forms "1" to "8" for `lines.Rank`, and null read as null;
  - castling letters K, Q, k and q, in the order white kingside, white queenside, black kingside, black queenside.
- `ArrayBoards.ArrayBoardBuilder.FromPieces`: as written `Builder(Piece[], Color)` always throws (see "## Findings"); the member models the evident intent, the placement loop of `BoardBuilder(Piece[], Color)` run on an initialised, empty board.
- Object identity and aliasing: Java's `int[]` clone in `ImmutableArrayBoard.Builder` is a fresh array in the model. Lists built by streams are values. Moves are values too: `BasicMove` overrides neither `equals` nor `hashCode`, so `board.getLegalMoves().contains(move)` (MoveMaker.java:32) tests object identity, while `MoveMaking.PerformMove` tests `move in legalMoves` by value. The two agree whenever the move is taken from the legal list, as every caller in the source does.
- Integer width: `Utilities.JavaAbs` and `Utilities.SignAsWritten` model the 32-bit `Math.abs` edge case. Elsewhere, values stay far inside 32 bits and are unbounded integers. A string of digits too long for `int` is not modelled.
- `MoveParsing.ReadGroups`: `lines.Rank` is not part of this model. A START_RANK group that took no part in the match is null, and `lines.Rank.getByHumanReadableForm(null)` is assumed to return null, as `lines.File.getByHumanReadableForm` does (lines/File.java:96-99); the readable forms of `lines.Rank` are assumed to be "1" to "8", the digits `MoveWriter` also writes (MoveWriter.java:104). If it threw on null instead, as `boardFeatures.Rank.getByHumanReadableForm` does through `Integer.parseInt` (boardFeatures/Rank.java:94-104), every piece move without a start rank, such as "Nf3", would fail.
- `MoveParsing.ParseAlgebraicNotation`: rests on the same assumption about `lines.Rank.getByHumanReadableForm(null)`. It (and `MoveParsing.Parse`) matches the text with the intended pattern, `AlgebraicNotation.Match`. As written (MoveParser.java:76-79 with the pattern of MoveParser.java:176-200, `AlgebraicNotation.MatchAsWritten`), the alternation is at the top level, so a pawn or piece move with a trailing mark ("e4+", "Nf3+") and a pawn move after white space (" e4") match nothing and give null, where the model returns the move. See "## Findings".
- `RankLines.ByHumanReadableForm`: like `Integer.parseInt`, the model's `RankLines.ParseInt` accepts an optional sign and leading zeros ("+3" and "003" give rank 3); it does not accept the non-ASCII digits that `Integer.parseInt` also reads.
- `FileLines.ByHumanReadableForm`: `Line.getByIndex` is not part of this model; an index outside 0..7 is taken to throw, as the javadoc of `File.getByIndex` (lines/File.java:80-85) says, and the member fails there.
- `FeatureDirection.OutwardDirections`: as written the constructor of the `boardFeatures.Direction` enum (Direction.java:29-35) calls `values()` (Direction.java:136-138) while the constants are still being built, when the array behind `values()` is still null; that throws a NullPointerException, so the enum never initialises. As written, every use of `boardFeatures.Direction` therefore fails: the `FixedSizeList` constructor (`FixedSizeLists.NewFixedSizeList`), and `boardFeatures.Rank` and `boardFeatures.UpRightDiagonal`, whose static fields name a direction (Rank.java:26, UpRightDiagonal.java:29). The Direction.java:42 finding is never reached as written. The model gives each constant its finished list, the evident intent, and the members built on these classes assume the enum initialises.
- `FenWriting.FenChar`: `Piece.toFENCharacter` is not in the source; the model assumes the FEN letters (upper case for white).
- `FixedOrderingSets.FixedOrderingSet.RetrieveOffset`: `retrieveOffsetFromElement` has no implementation in the source. The model takes the element at the given offset of the ordering, or null past either end or for a non-member.
- `FixedOrderingSets.FixedOrderingSet.SubSet`: `subSet` has no implementation in the source. The model returns the slice between two members in order and fails otherwise.
- `MoveWriting.GetMoveAsString`: succeeds with the intended text `MoveWriting.MoveText`. As written (MoveWriter.java:99, `MoveWriting.MoveTextAsWritten`) every move begins with `PieceType.toString`, the English name of the moving piece, pawns included ("pawne4", "knightf3"), and a promotion piece is written by its name too. The model writes the moving piece as its letter and a pawn as nothing (`MoveWriting.PieceText`), and the promotion piece as its letter. See "## Findings".
- `MoveWriting.PieceText` and `MoveWriting.MoveText` are the intended writing, not the source as written; the as-written text is `MoveWriting.MoveTextAsWritten`.
- `NotationRoundTrip.PieceMoveRoundTrip`, `NotationRoundTrip.CastleRoundTrip` and `NotationRoundTrip.PawnMoveRoundTrip` assume that no two legal moves share piece type, start, end and promotion piece (`RouteUnique`), and that legal moves are listed once. The pawn round trip is stated only for a pawn move that no other pawn move to its square shares, and only for a non-capture that stays on its file.
- `MoveGeneration.ImmutableArrayMoveGenerator.CalculateMoves`: the per-piece `getLegalMoves` guards are checked, but each square's legal moves are an input of the board model. They are not recomputed from the piece rules.
- `Kings.LegalSquaresToMoveTo` and `Pawns.ValidPawnMoveKinds`: checks, pins, safe squares and blocked paths are answers of the processed board, taken as given.
- `EvenlySpacedCircles.EvenlySpacedCircle.constructor`: the ring of squares is an input, because `Ring.java` is not part of this model.
- `BreadthFirst.BreadthFirstTraversal.Next`: requires `HasNext()`; callers are taken to honour `hasNext`. On an empty queue the source's `next()` polls null, offers `getNeighbors(null)` (the start nodes, all already visited) and returns null; that case is not modelled.
- `FixedSizeLists.FixedSizeList.Contains`: `Square.getIndex` is assumed to be the square ordinal.
- `ArrayBoards.ArrayBoard.EnPassantCaptureFile`: `boardFeatures.File.getByIndex` is not part of this model. Without the permission bit the source passes a null `Integer` to it (ImmutableArrayBoard.java:76-77); the model takes that to give null, no file. If that method takes an `int`, as `lines.File.getByIndex` does (lines/File.java:86), the unboxing throws instead, for every position without en passant.
- `FixedOrderingSets.ThirdInSequence`: the direction comes from `comparator().compare(first, second)` (FixedOrderingSet.java:65); the model takes the comparator to agree with the set's fixed order, comparing positions.
- `MoveMaking.PositionBuilder.SwitchSquares`: uses the intended `Pieces.ByColorAndType`. With the lookup as written (Piece.java:87, `Pieces.ByColorAndTypeAsWritten`), every white lookup gives WHITE_PAWN, so `switchSquares` (MoveMaker.java:107) puts a white pawn on the end square of every white move. Black moves are unaffected.
- `MoveMaking.Switched`: states the intended update; as written, the end square of a white move holds WHITE_PAWN whatever piece moved.
- `MoveGeneration.OwnPieces`: uses the intended lookup; as written every white type maps to WHITE_PAWN (ImmutableArrayMoveGenerator.java:57), so white's list holds the pawn squares once per piece type.
- `MoveGeneration.ImmutableArrayMoveGenerator.CalculateMoves`: uses the intended lookup; as written the white king lookup (ImmutableArrayMoveGenerator.java:58) asks for WHITE_PAWN, so the king square taken is white's first pawn square, and the call throws when white has no pawn.

## Findings

| source | as written | input that shows it | evidently intended | confidence | as-written member | corrected member |
|---|---|---|---|---|---|---|
| workspace/chessProgram/src/immutableArrayBoard/ImmutableArrayBoard.java:70 | `%` binds tighter than `>>>` and `==`, so the rights word is shifted by `ordinal % 2` and the whole word is compared with 1 | rights word 0x104 (white to move, black kingside allowed): black kingside reads as not allowed | test bit `ordinal` of the rights word | not executed | ArrayBoards.CanCastleAsWrittenMisreads | ArrayBoards.CanCastle |
| workspace/chessProgram/src/immutableArrayBoard/ImmutableArrayBoard.java:148 | clearing en passant ANDs with the complement of `~0b11110000`, which keeps only bits 4-7 | white to move, then `withEnPassant(null)`: black is to move and every castling right is gone | clear only the en passant bits 4-7 | not executed | ArrayBoards.ClearEnPassantAsWrittenLosesTurn | ArrayBoards.ArrayBoardBuilder.WithEnPassant |
| workspace/chessProgram/src/immutableArrayBoard/ImmutableArrayBoard.java:124-126 | `super(pieces, whoToMove)` runs the placement loop of `BoardBuilder` (BoardBuilder.java:18-21), which calls `setPieceAtSquare`, before the field initialiser `board = new int[ARRAY_SIZE]` (line 99) has run | any array of pieces: the first `board[fileIndex]` read throws a NullPointerException | initialise `board` before placing the pieces | not executed | ArrayBoards.FromPiecesAsWritten | ArrayBoards.ArrayBoardBuilder.FromPieces |
| workspace/chessProgram/src/immutableArrayBoard/ImmutableArrayBoard.java:171-174 | the new piece's bits are ORed into the old nibble | a white knight put on a square holding a white pawn reads back as a white bishop | clear the nibble, then set it | not executed | ArrayBoards.OverwriteAsWrittenMixesPieces | ArrayBoards.ArrayBoardBuilder.WithPieceAtSquare |
| workspace/chessProgram/src/pieces/Piece.java:87 | `?:` binds looser than `+`, so every white lookup gives index 1 | white knight: WHITE_PAWN | base 1 or 7, plus the type's ordinal | not executed | Pieces.ByColorAndTypeAsWrittenLosesType | Pieces.ByColorAndTypeInverse |
| workspace/chessProgram/src/boardFeatures/Direction.java:42 | the opposite is `values()[4 - ordinal]` | DOWN gives LEFT; UP throws an index error | `values()[8 - ordinal]` | not executed | FeatureDirection.OppositeAsWrittenIsWrong | FeatureDirection.OppositeIsInvolution |
| workspace/chessProgram/src/boardFeatures/DownRightDiagonal.java:54 | the rank formula gives `-offset` for diagonals past the long one | diagonal b8-h2 (index 8): rank -1 throws; index 14 lists h1 | rank = index - file | not executed | FeatureDownRightDiagonals.ContainedSquaresAsWrittenByIndex | DownRightDiagonals.ContainedSquaresExactly |
| workspace/chessProgram/src/moves/BasicMove.java:152-157 | `compress` takes the ordinal of the captured and promotion pieces unconditionally | any move but a promotion with capture: null dereference | write 0 for an absent piece | not executed | BasicMoves.CompressAsWrittenOnlyPromotionWithCapture | BasicMoves.DecodeCompress |
| workspace/chessProgram/src/moves/BasicMove.java:206 | `argCheck(capturedPiece, null, false)` throws when the field IS null | a fresh CAPTURE builder: `withCapture(PAWN)` throws | throw when the field is already set | not executed | BasicMoves.CaptureCannotBeBuiltAsWritten | BasicMoves.CaptureIsBuilt |
| workspace/chessProgram/src/moves/BasicMove.java:221 | the same inverted check on the promotion piece | a fresh PROMOTION builder: `withPromotion(QUEEN)` throws | throw when the field is already set | not executed | BasicMoves.PromotionCannotBeBuiltAsWritten | BasicMoves.MoveBuilder.WithPromotion |
| workspace/chessProgram/src/stringUtilities/MoveParser.java:176-200 | the alternation is top level, so the leading white space belongs to piece moves only, and the suffix and trailing white space to castles only | "e4+", "Nf3+" and " e4" match nothing, and so does every pawn or piece move with a mark and every pawn move after white space | white space and a suffix mark around every alternative, as the comment at lines 202-207 suggests | not executed | AlgebraicNotation.PawnCheckRefusedAsWritten | AlgebraicNotation.MatchDecorated |
| workspace/chessProgram/src/stringUtilities/MoveWriter.java:99 | the piece is written with `PieceType.toString`, its readable name | the knight's move g1-f3 is written "knightf3", which the parser refuses | the SAN letter, none for a pawn | not executed | MoveWriting.KnightMoveWrittenAsName | NotationRoundTrip.PieceMoveRoundTrip |
| workspace/chessProgram/src/support/UtilityFunctions.java:60-62 | `value / Math.abs(value)`, and `Math.abs` of the least int is itself | -2147483648 has sign 1 | -1 for every negative value | not executed | Utilities.SignAsWrittenOfMinValue | Utilities.Sign |
| workspace/chessProgram/src/support/UtilityFunctions.java:220-222 | the test is the negation of `isNull(string)`, or-ed with the empty-string test: it holds for every non-null string, and for null `null.equals("")` throws | "e4" counts as empty; null throws a NullPointerException | true for null or the empty string | not executed | Utilities.IsEmptyAsWrittenInverted | Utilities.IsEmpty |
| workspace/chessProgram/src/support/UtilityFunctions.java:163 | the pair is swapped only when the comparison exceeds 1 | [2, 1] under a comparator answering 1 stays unsorted | swap when the comparison is positive | not executed | Utilities.SortTwoElementsAsWrittenLeavesUnsorted | Utilities.SortTwoElements |
