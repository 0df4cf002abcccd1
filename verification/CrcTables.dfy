/** The two tables of crc32.c, sixteen entries to a row. */
module CrcTables {
  import opened CrcBits

  /** crc_tab of a little-endian machine. */
  function Little(i: bv8): bv32 {
    if i < 0x10 then LittleRow0(i)
    else if i < 0x20 then LittleRow1(i)
    else if i < 0x30 then LittleRow2(i)
    else if i < 0x40 then LittleRow3(i)
    else if i < 0x50 then LittleRow4(i)
    else if i < 0x60 then LittleRow5(i)
    else if i < 0x70 then LittleRow6(i)
    else if i < 0x80 then LittleRow7(i)
    else if i < 0x90 then LittleRow8(i)
    else if i < 0xa0 then LittleRow9(i)
    else if i < 0xb0 then LittleRow10(i)
    else if i < 0xc0 then LittleRow11(i)
    else if i < 0xd0 then LittleRow12(i)
    else if i < 0xe0 then LittleRow13(i)
    else if i < 0xf0 then LittleRow14(i)
    else LittleRow15(i)
  }

  function LittleRow0(i: bv8): bv32 {
    if i == 0x00 then 0x00000000 else if i == 0x01 then 0x77073096 else if i == 0x02 then 0xee0e612c else if i == 0x03 then 0x990951ba
    else if i == 0x04 then 0x076dc419 else if i == 0x05 then 0x706af48f else if i == 0x06 then 0xe963a535 else if i == 0x07 then 0x9e6495a3
    else if i == 0x08 then 0x0edb8832 else if i == 0x09 then 0x79dcb8a4 else if i == 0x0a then 0xe0d5e91e else if i == 0x0b then 0x97d2d988
    else if i == 0x0c then 0x09b64c2b else if i == 0x0d then 0x7eb17cbd else if i == 0x0e then 0xe7b82d07 else 0x90bf1d91
  }

  function LittleRow1(i: bv8): bv32 {
    if i == 0x10 then 0x1db71064 else if i == 0x11 then 0x6ab020f2 else if i == 0x12 then 0xf3b97148 else if i == 0x13 then 0x84be41de
    else if i == 0x14 then 0x1adad47d else if i == 0x15 then 0x6ddde4eb else if i == 0x16 then 0xf4d4b551 else if i == 0x17 then 0x83d385c7
    else if i == 0x18 then 0x136c9856 else if i == 0x19 then 0x646ba8c0 else if i == 0x1a then 0xfd62f97a else if i == 0x1b then 0x8a65c9ec
    else if i == 0x1c then 0x14015c4f else if i == 0x1d then 0x63066cd9 else if i == 0x1e then 0xfa0f3d63 else 0x8d080df5
  }

  function LittleRow2(i: bv8): bv32 {
    if i == 0x20 then 0x3b6e20c8 else if i == 0x21 then 0x4c69105e else if i == 0x22 then 0xd56041e4 else if i == 0x23 then 0xa2677172
    else if i == 0x24 then 0x3c03e4d1 else if i == 0x25 then 0x4b04d447 else if i == 0x26 then 0xd20d85fd else if i == 0x27 then 0xa50ab56b
    else if i == 0x28 then 0x35b5a8fa else if i == 0x29 then 0x42b2986c else if i == 0x2a then 0xdbbbc9d6 else if i == 0x2b then 0xacbcf940
    else if i == 0x2c then 0x32d86ce3 else if i == 0x2d then 0x45df5c75 else if i == 0x2e then 0xdcd60dcf else 0xabd13d59
  }

  function LittleRow3(i: bv8): bv32 {
    if i == 0x30 then 0x26d930ac else if i == 0x31 then 0x51de003a else if i == 0x32 then 0xc8d75180 else if i == 0x33 then 0xbfd06116
    else if i == 0x34 then 0x21b4f4b5 else if i == 0x35 then 0x56b3c423 else if i == 0x36 then 0xcfba9599 else if i == 0x37 then 0xb8bda50f
    else if i == 0x38 then 0x2802b89e else if i == 0x39 then 0x5f058808 else if i == 0x3a then 0xc60cd9b2 else if i == 0x3b then 0xb10be924
    else if i == 0x3c then 0x2f6f7c87 else if i == 0x3d then 0x58684c11 else if i == 0x3e then 0xc1611dab else 0xb6662d3d
  }

  function LittleRow4(i: bv8): bv32 {
    if i == 0x40 then 0x76dc4190 else if i == 0x41 then 0x01db7106 else if i == 0x42 then 0x98d220bc else if i == 0x43 then 0xefd5102a
    else if i == 0x44 then 0x71b18589 else if i == 0x45 then 0x06b6b51f else if i == 0x46 then 0x9fbfe4a5 else if i == 0x47 then 0xe8b8d433
    else if i == 0x48 then 0x7807c9a2 else if i == 0x49 then 0x0f00f934 else if i == 0x4a then 0x9609a88e else if i == 0x4b then 0xe10e9818
    else if i == 0x4c then 0x7f6a0dbb else if i == 0x4d then 0x086d3d2d else if i == 0x4e then 0x91646c97 else 0xe6635c01
  }

  function LittleRow5(i: bv8): bv32 {
    if i == 0x50 then 0x6b6b51f4 else if i == 0x51 then 0x1c6c6162 else if i == 0x52 then 0x856530d8 else if i == 0x53 then 0xf262004e
    else if i == 0x54 then 0x6c0695ed else if i == 0x55 then 0x1b01a57b else if i == 0x56 then 0x8208f4c1 else if i == 0x57 then 0xf50fc457
    else if i == 0x58 then 0x65b0d9c6 else if i == 0x59 then 0x12b7e950 else if i == 0x5a then 0x8bbeb8ea else if i == 0x5b then 0xfcb9887c
    else if i == 0x5c then 0x62dd1ddf else if i == 0x5d then 0x15da2d49 else if i == 0x5e then 0x8cd37cf3 else 0xfbd44c65
  }

  function LittleRow6(i: bv8): bv32 {
    if i == 0x60 then 0x4db26158 else if i == 0x61 then 0x3ab551ce else if i == 0x62 then 0xa3bc0074 else if i == 0x63 then 0xd4bb30e2
    else if i == 0x64 then 0x4adfa541 else if i == 0x65 then 0x3dd895d7 else if i == 0x66 then 0xa4d1c46d else if i == 0x67 then 0xd3d6f4fb
    else if i == 0x68 then 0x4369e96a else if i == 0x69 then 0x346ed9fc else if i == 0x6a then 0xad678846 else if i == 0x6b then 0xda60b8d0
    else if i == 0x6c then 0x44042d73 else if i == 0x6d then 0x33031de5 else if i == 0x6e then 0xaa0a4c5f else 0xdd0d7cc9
  }

  function LittleRow7(i: bv8): bv32 {
    if i == 0x70 then 0x5005713c else if i == 0x71 then 0x270241aa else if i == 0x72 then 0xbe0b1010 else if i == 0x73 then 0xc90c2086
    else if i == 0x74 then 0x5768b525 else if i == 0x75 then 0x206f85b3 else if i == 0x76 then 0xb966d409 else if i == 0x77 then 0xce61e49f
    else if i == 0x78 then 0x5edef90e else if i == 0x79 then 0x29d9c998 else if i == 0x7a then 0xb0d09822 else if i == 0x7b then 0xc7d7a8b4
    else if i == 0x7c then 0x59b33d17 else if i == 0x7d then 0x2eb40d81 else if i == 0x7e then 0xb7bd5c3b else 0xc0ba6cad
  }

  function LittleRow8(i: bv8): bv32 {
    if i == 0x80 then 0xedb88320 else if i == 0x81 then 0x9abfb3b6 else if i == 0x82 then 0x03b6e20c else if i == 0x83 then 0x74b1d29a
    else if i == 0x84 then 0xead54739 else if i == 0x85 then 0x9dd277af else if i == 0x86 then 0x04db2615 else if i == 0x87 then 0x73dc1683
    else if i == 0x88 then 0xe3630b12 else if i == 0x89 then 0x94643b84 else if i == 0x8a then 0x0d6d6a3e else if i == 0x8b then 0x7a6a5aa8
    else if i == 0x8c then 0xe40ecf0b else if i == 0x8d then 0x9309ff9d else if i == 0x8e then 0x0a00ae27 else 0x7d079eb1
  }

  function LittleRow9(i: bv8): bv32 {
    if i == 0x90 then 0xf00f9344 else if i == 0x91 then 0x8708a3d2 else if i == 0x92 then 0x1e01f268 else if i == 0x93 then 0x6906c2fe
    else if i == 0x94 then 0xf762575d else if i == 0x95 then 0x806567cb else if i == 0x96 then 0x196c3671 else if i == 0x97 then 0x6e6b06e7
    else if i == 0x98 then 0xfed41b76 else if i == 0x99 then 0x89d32be0 else if i == 0x9a then 0x10da7a5a else if i == 0x9b then 0x67dd4acc
    else if i == 0x9c then 0xf9b9df6f else if i == 0x9d then 0x8ebeeff9 else if i == 0x9e then 0x17b7be43 else 0x60b08ed5
  }

  function LittleRow10(i: bv8): bv32 {
    if i == 0xa0 then 0xd6d6a3e8 else if i == 0xa1 then 0xa1d1937e else if i == 0xa2 then 0x38d8c2c4 else if i == 0xa3 then 0x4fdff252
    else if i == 0xa4 then 0xd1bb67f1 else if i == 0xa5 then 0xa6bc5767 else if i == 0xa6 then 0x3fb506dd else if i == 0xa7 then 0x48b2364b
    else if i == 0xa8 then 0xd80d2bda else if i == 0xa9 then 0xaf0a1b4c else if i == 0xaa then 0x36034af6 else if i == 0xab then 0x41047a60
    else if i == 0xac then 0xdf60efc3 else if i == 0xad then 0xa867df55 else if i == 0xae then 0x316e8eef else 0x4669be79
  }

  function LittleRow11(i: bv8): bv32 {
    if i == 0xb0 then 0xcb61b38c else if i == 0xb1 then 0xbc66831a else if i == 0xb2 then 0x256fd2a0 else if i == 0xb3 then 0x5268e236
    else if i == 0xb4 then 0xcc0c7795 else if i == 0xb5 then 0xbb0b4703 else if i == 0xb6 then 0x220216b9 else if i == 0xb7 then 0x5505262f
    else if i == 0xb8 then 0xc5ba3bbe else if i == 0xb9 then 0xb2bd0b28 else if i == 0xba then 0x2bb45a92 else if i == 0xbb then 0x5cb36a04
    else if i == 0xbc then 0xc2d7ffa7 else if i == 0xbd then 0xb5d0cf31 else if i == 0xbe then 0x2cd99e8b else 0x5bdeae1d
  }

  function LittleRow12(i: bv8): bv32 {
    if i == 0xc0 then 0x9b64c2b0 else if i == 0xc1 then 0xec63f226 else if i == 0xc2 then 0x756aa39c else if i == 0xc3 then 0x026d930a
    else if i == 0xc4 then 0x9c0906a9 else if i == 0xc5 then 0xeb0e363f else if i == 0xc6 then 0x72076785 else if i == 0xc7 then 0x05005713
    else if i == 0xc8 then 0x95bf4a82 else if i == 0xc9 then 0xe2b87a14 else if i == 0xca then 0x7bb12bae else if i == 0xcb then 0x0cb61b38
    else if i == 0xcc then 0x92d28e9b else if i == 0xcd then 0xe5d5be0d else if i == 0xce then 0x7cdcefb7 else 0x0bdbdf21
  }

  function LittleRow13(i: bv8): bv32 {
    if i == 0xd0 then 0x86d3d2d4 else if i == 0xd1 then 0xf1d4e242 else if i == 0xd2 then 0x68ddb3f8 else if i == 0xd3 then 0x1fda836e
    else if i == 0xd4 then 0x81be16cd else if i == 0xd5 then 0xf6b9265b else if i == 0xd6 then 0x6fb077e1 else if i == 0xd7 then 0x18b74777
    else if i == 0xd8 then 0x88085ae6 else if i == 0xd9 then 0xff0f6a70 else if i == 0xda then 0x66063bca else if i == 0xdb then 0x11010b5c
    else if i == 0xdc then 0x8f659eff else if i == 0xdd then 0xf862ae69 else if i == 0xde then 0x616bffd3 else 0x166ccf45
  }

  function LittleRow14(i: bv8): bv32 {
    if i == 0xe0 then 0xa00ae278 else if i == 0xe1 then 0xd70dd2ee else if i == 0xe2 then 0x4e048354 else if i == 0xe3 then 0x3903b3c2
    else if i == 0xe4 then 0xa7672661 else if i == 0xe5 then 0xd06016f7 else if i == 0xe6 then 0x4969474d else if i == 0xe7 then 0x3e6e77db
    else if i == 0xe8 then 0xaed16a4a else if i == 0xe9 then 0xd9d65adc else if i == 0xea then 0x40df0b66 else if i == 0xeb then 0x37d83bf0
    else if i == 0xec then 0xa9bcae53 else if i == 0xed then 0xdebb9ec5 else if i == 0xee then 0x47b2cf7f else 0x30b5ffe9
  }

  function LittleRow15(i: bv8): bv32 {
    if i == 0xf0 then 0xbdbdf21c else if i == 0xf1 then 0xcabac28a else if i == 0xf2 then 0x53b39330 else if i == 0xf3 then 0x24b4a3a6
    else if i == 0xf4 then 0xbad03605 else if i == 0xf5 then 0xcdd70693 else if i == 0xf6 then 0x54de5729 else if i == 0xf7 then 0x23d967bf
    else if i == 0xf8 then 0xb3667a2e else if i == 0xf9 then 0xc4614ab8 else if i == 0xfa then 0x5d681b02 else if i == 0xfb then 0x2a6f2b94
    else if i == 0xfc then 0xb40bbe37 else if i == 0xfd then 0xc30c8ea1 else if i == 0xfe then 0x5a05df1b else 0x2d02ef8d
  }

  /** crc_tab of a big-endian machine. */
  function Big(i: bv8): bv32 {
    if i < 0x10 then BigRow0(i)
    else if i < 0x20 then BigRow1(i)
    else if i < 0x30 then BigRow2(i)
    else if i < 0x40 then BigRow3(i)
    else if i < 0x50 then BigRow4(i)
    else if i < 0x60 then BigRow5(i)
    else if i < 0x70 then BigRow6(i)
    else if i < 0x80 then BigRow7(i)
    else if i < 0x90 then BigRow8(i)
    else if i < 0xa0 then BigRow9(i)
    else if i < 0xb0 then BigRow10(i)
    else if i < 0xc0 then BigRow11(i)
    else if i < 0xd0 then BigRow12(i)
    else if i < 0xe0 then BigRow13(i)
    else if i < 0xf0 then BigRow14(i)
    else BigRow15(i)
  }

  function BigRow0(i: bv8): bv32 {
    if i == 0x00 then 0x00000000 else if i == 0x01 then 0x96300777 else if i == 0x02 then 0x2c610eee else if i == 0x03 then 0xba510999
    else if i == 0x04 then 0x19c46d07 else if i == 0x05 then 0x8ff46a70 else if i == 0x06 then 0x35a563e9 else if i == 0x07 then 0xa395649e
    else if i == 0x08 then 0x3288db0e else if i == 0x09 then 0xa4b8dc79 else if i == 0x0a then 0x1ee9d5e0 else if i == 0x0b then 0x88d9d297
    else if i == 0x0c then 0x2b4cb609 else if i == 0x0d then 0xbd7cb17e else if i == 0x0e then 0x072db8e7 else 0x911dbf90
  }

  function BigRow1(i: bv8): bv32 {
    if i == 0x10 then 0x6410b71d else if i == 0x11 then 0xf220b06a else if i == 0x12 then 0x4871b9f3 else if i == 0x13 then 0xde41be84
    else if i == 0x14 then 0x7dd4da1a else if i == 0x15 then 0xebe4dd6d else if i == 0x16 then 0x51b5d4f4 else if i == 0x17 then 0xc785d383
    else if i == 0x18 then 0x56986c13 else if i == 0x19 then 0xc0a86b64 else if i == 0x1a then 0x7af962fd else if i == 0x1b then 0xecc9658a
    else if i == 0x1c then 0x4f5c0114 else if i == 0x1d then 0xd96c0663 else if i == 0x1e then 0x633d0ffa else 0xf50d088d
  }

  function BigRow2(i: bv8): bv32 {
    if i == 0x20 then 0xc8206e3b else if i == 0x21 then 0x5e10694c else if i == 0x22 then 0xe44160d5 else if i == 0x23 then 0x727167a2
    else if i == 0x24 then 0xd1e4033c else if i == 0x25 then 0x47d4044b else if i == 0x26 then 0xfd850dd2 else if i == 0x27 then 0x6bb50aa5
    else if i == 0x28 then 0xfaa8b535 else if i == 0x29 then 0x6c98b242 else if i == 0x2a then 0xd6c9bbdb else if i == 0x2b then 0x40f9bcac
    else if i == 0x2c then 0xe36cd832 else if i == 0x2d then 0x755cdf45 else if i == 0x2e then 0xcf0dd6dc else 0x593dd1ab
  }

  function BigRow3(i: bv8): bv32 {
    if i == 0x30 then 0xac30d926 else if i == 0x31 then 0x3a00de51 else if i == 0x32 then 0x8051d7c8 else if i == 0x33 then 0x1661d0bf
    else if i == 0x34 then 0xb5f4b421 else if i == 0x35 then 0x23c4b356 else if i == 0x36 then 0x9995bacf else if i == 0x37 then 0x0fa5bdb8
    else if i == 0x38 then 0x9eb80228 else if i == 0x39 then 0x0888055f else if i == 0x3a then 0xb2d90cc6 else if i == 0x3b then 0x24e90bb1
    else if i == 0x3c then 0x877c6f2f else if i == 0x3d then 0x114c6858 else if i == 0x3e then 0xab1d61c1 else 0x3d2d66b6
  }

  function BigRow4(i: bv8): bv32 {
    if i == 0x40 then 0x9041dc76 else if i == 0x41 then 0x0671db01 else if i == 0x42 then 0xbc20d298 else if i == 0x43 then 0x2a10d5ef
    else if i == 0x44 then 0x8985b171 else if i == 0x45 then 0x1fb5b606 else if i == 0x46 then 0xa5e4bf9f else if i == 0x47 then 0x33d4b8e8
    else if i == 0x48 then 0xa2c90778 else if i == 0x49 then 0x34f9000f else if i == 0x4a then 0x8ea80996 else if i == 0x4b then 0x18980ee1
    else if i == 0x4c then 0xbb0d6a7f else if i == 0x4d then 0x2d3d6d08 else if i == 0x4e then 0x976c6491 else 0x015c63e6
  }

  function BigRow5(i: bv8): bv32 {
    if i == 0x50 then 0xf4516b6b else if i == 0x51 then 0x62616c1c else if i == 0x52 then 0xd8306585 else if i == 0x53 then 0x4e0062f2
    else if i == 0x54 then 0xed95066c else if i == 0x55 then 0x7ba5011b else if i == 0x56 then 0xc1f40882 else if i == 0x57 then 0x57c40ff5
    else if i == 0x58 then 0xc6d9b065 else if i == 0x59 then 0x50e9b712 else if i == 0x5a then 0xeab8be8b else if i == 0x5b then 0x7c88b9fc
    else if i == 0x5c then 0xdf1ddd62 else if i == 0x5d then 0x492dda15 else if i == 0x5e then 0xf37cd38c else 0x654cd4fb
  }

  function BigRow6(i: bv8): bv32 {
    if i == 0x60 then 0x5861b24d else if i == 0x61 then 0xce51b53a else if i == 0x62 then 0x7400bca3 else if i == 0x63 then 0xe230bbd4
    else if i == 0x64 then 0x41a5df4a else if i == 0x65 then 0xd795d83d else if i == 0x66 then 0x6dc4d1a4 else if i == 0x67 then 0xfbf4d6d3
    else if i == 0x68 then 0x6ae96943 else if i == 0x69 then 0xfcd96e34 else if i == 0x6a then 0x468867ad else if i == 0x6b then 0xd0b860da
    else if i == 0x6c then 0x732d0444 else if i == 0x6d then 0xe51d0333 else if i == 0x6e then 0x5f4c0aaa else 0xc97c0ddd
  }

  function BigRow7(i: bv8): bv32 {
    if i == 0x70 then 0x3c710550 else if i == 0x71 then 0xaa410227 else if i == 0x72 then 0x10100bbe else if i == 0x73 then 0x86200cc9
    else if i == 0x74 then 0x25b56857 else if i == 0x75 then 0xb3856f20 else if i == 0x76 then 0x09d466b9 else if i == 0x77 then 0x9fe461ce
    else if i == 0x78 then 0x0ef9de5e else if i == 0x79 then 0x98c9d929 else if i == 0x7a then 0x2298d0b0 else if i == 0x7b then 0xb4a8d7c7
    else if i == 0x7c then 0x173db359 else if i == 0x7d then 0x810db42e else if i == 0x7e then 0x3b5cbdb7 else 0xad6cbac0
  }

  function BigRow8(i: bv8): bv32 {
    if i == 0x80 then 0x2083b8ed else if i == 0x81 then 0xb6b3bf9a else if i == 0x82 then 0x0ce2b603 else if i == 0x83 then 0x9ad2b174
    else if i == 0x84 then 0x3947d5ea else if i == 0x85 then 0xaf77d29d else if i == 0x86 then 0x1526db04 else if i == 0x87 then 0x8316dc73
    else if i == 0x88 then 0x120b63e3 else if i == 0x89 then 0x843b6494 else if i == 0x8a then 0x3e6a6d0d else if i == 0x8b then 0xa85a6a7a
    else if i == 0x8c then 0x0bcf0ee4 else if i == 0x8d then 0x9dff0993 else if i == 0x8e then 0x27ae000a else 0xb19e077d
  }

  function BigRow9(i: bv8): bv32 {
    if i == 0x90 then 0x44930ff0 else if i == 0x91 then 0xd2a30887 else if i == 0x92 then 0x68f2011e else if i == 0x93 then 0xfec20669
    else if i == 0x94 then 0x5d5762f7 else if i == 0x95 then 0xcb676580 else if i == 0x96 then 0x71366c19 else if i == 0x97 then 0xe7066b6e
    else if i == 0x98 then 0x761bd4fe else if i == 0x99 then 0xe02bd389 else if i == 0x9a then 0x5a7ada10 else if i == 0x9b then 0xcc4add67
    else if i == 0x9c then 0x6fdfb9f9 else if i == 0x9d then 0xf9efbe8e else if i == 0x9e then 0x43beb717 else 0xd58eb060
  }

  function BigRow10(i: bv8): bv32 {
    if i == 0xa0 then 0xe8a3d6d6 else if i == 0xa1 then 0x7e93d1a1 else if i == 0xa2 then 0xc4c2d838 else if i == 0xa3 then 0x52f2df4f
    else if i == 0xa4 then 0xf167bbd1 else if i == 0xa5 then 0x6757bca6 else if i == 0xa6 then 0xdd06b53f else if i == 0xa7 then 0x4b36b248
    else if i == 0xa8 then 0xda2b0dd8 else if i == 0xa9 then 0x4c1b0aaf else if i == 0xaa then 0xf64a0336 else if i == 0xab then 0x607a0441
    else if i == 0xac then 0xc3ef60df else if i == 0xad then 0x55df67a8 else if i == 0xae then 0xef8e6e31 else 0x79be6946
  }

  function BigRow11(i: bv8): bv32 {
    if i == 0xb0 then 0x8cb361cb else if i == 0xb1 then 0x1a8366bc else if i == 0xb2 then 0xa0d26f25 else if i == 0xb3 then 0x36e26852
    else if i == 0xb4 then 0x95770ccc else if i == 0xb5 then 0x03470bbb else if i == 0xb6 then 0xb9160222 else if i == 0xb7 then 0x2f260555
    else if i == 0xb8 then 0xbe3bbac5 else if i == 0xb9 then 0x280bbdb2 else if i == 0xba then 0x925ab42b else if i == 0xbb then 0x046ab35c
    else if i == 0xbc then 0xa7ffd7c2 else if i == 0xbd then 0x31cfd0b5 else if i == 0xbe then 0x8b9ed92c else 0x1daede5b
  }

  function BigRow12(i: bv8): bv32 {
    if i == 0xc0 then 0xb0c2649b else if i == 0xc1 then 0x26f263ec else if i == 0xc2 then 0x9ca36a75 else if i == 0xc3 then 0x0a936d02
    else if i == 0xc4 then 0xa906099c else if i == 0xc5 then 0x3f360eeb else if i == 0xc6 then 0x85670772 else if i == 0xc7 then 0x13570005
    else if i == 0xc8 then 0x824abf95 else if i == 0xc9 then 0x147ab8e2 else if i == 0xca then 0xae2bb17b else if i == 0xcb then 0x381bb60c
    else if i == 0xcc then 0x9b8ed292 else if i == 0xcd then 0x0dbed5e5 else if i == 0xce then 0xb7efdc7c else 0x21dfdb0b
  }

  function BigRow13(i: bv8): bv32 {
    if i == 0xd0 then 0xd4d2d386 else if i == 0xd1 then 0x42e2d4f1 else if i == 0xd2 then 0xf8b3dd68 else if i == 0xd3 then 0x6e83da1f
    else if i == 0xd4 then 0xcd16be81 else if i == 0xd5 then 0x5b26b9f6 else if i == 0xd6 then 0xe177b06f else if i == 0xd7 then 0x7747b718
    else if i == 0xd8 then 0xe65a0888 else if i == 0xd9 then 0x706a0fff else if i == 0xda then 0xca3b0666 else if i == 0xdb then 0x5c0b0111
    else if i == 0xdc then 0xff9e658f else if i == 0xdd then 0x69ae62f8 else if i == 0xde then 0xd3ff6b61 else 0x45cf6c16
  }

  function BigRow14(i: bv8): bv32 {
    if i == 0xe0 then 0x78e20aa0 else if i == 0xe1 then 0xeed20dd7 else if i == 0xe2 then 0x5483044e else if i == 0xe3 then 0xc2b30339
    else if i == 0xe4 then 0x612667a7 else if i == 0xe5 then 0xf71660d0 else if i == 0xe6 then 0x4d476949 else if i == 0xe7 then 0xdb776e3e
    else if i == 0xe8 then 0x4a6ad1ae else if i == 0xe9 then 0xdc5ad6d9 else if i == 0xea then 0x660bdf40 else if i == 0xeb then 0xf03bd837
    else if i == 0xec then 0x53aebca9 else if i == 0xed then 0xc59ebbde else if i == 0xee then 0x7fcfb247 else 0xe9ffb530
  }

  function BigRow15(i: bv8): bv32 {
    if i == 0xf0 then 0x1cf2bdbd else if i == 0xf1 then 0x8ac2baca else if i == 0xf2 then 0x3093b353 else if i == 0xf3 then 0xa6a3b424
    else if i == 0xf4 then 0x0536d0ba else if i == 0xf5 then 0x9306d7cd else if i == 0xf6 then 0x2957de54 else if i == 0xf7 then 0xbf67d923
    else if i == 0xf8 then 0x2e7a66b3 else if i == 0xf9 then 0xb84a61c4 else if i == 0xfa then 0x021b685d else if i == 0xfb then 0x942b6f2a
    else if i == 0xfc then 0x37be0bb4 else if i == 0xfd then 0xa18e0cc3 else if i == 0xfe then 0x1bdf055a else 0x8def022d
  }

  // ------------------------------------------------------------------ the little-endian table

  lemma FirstEntries()
    ensures LittleRow0(0x00) == Eight(0x00) && LittleRow0(0x01) == Eight(0x01) && LittleRow0(0x02) == Eight(0x02) && LittleRow0(0x03) == Eight(0x03)
    ensures LittleRow0(0x04) == Eight(0x04) && LittleRow0(0x05) == Eight(0x05) && LittleRow0(0x06) == Eight(0x06) && LittleRow0(0x07) == Eight(0x07)
  {
  }

  lemma NextEntries()
    ensures LittleRow0(0x08) == Eight(0x08) && LittleRow0(0x09) == Eight(0x09) && LittleRow0(0x0a) == Eight(0x0a) && LittleRow0(0x0b) == Eight(0x0b)
  {
  }

  lemma LastEntries()
    ensures LittleRow0(0x0c) == Eight(0x0c) && LittleRow0(0x0d) == Eight(0x0d) && LittleRow0(0x0e) == Eight(0x0e) && LittleRow0(0x0f) == Eight(0x0f)
  {
  }

  lemma LowRows()
    ensures LittleRow1(0x10) == Eight(0x10) && LittleRow2(0x20) == Eight(0x20) && LittleRow3(0x30) == Eight(0x30) && LittleRow4(0x40) == Eight(0x40)
    ensures LittleRow5(0x50) == Eight(0x50) && LittleRow6(0x60) == Eight(0x60) && LittleRow7(0x70) == Eight(0x70)
  {
  }

  lemma HighRows()
    ensures LittleRow8(0x80) == Eight(0x80) && LittleRow9(0x90) == Eight(0x90) && LittleRow10(0xa0) == Eight(0xa0) && LittleRow11(0xb0) == Eight(0xb0)
    ensures LittleRow12(0xc0) == Eight(0xc0) && LittleRow13(0xd0) == Eight(0xd0) && LittleRow14(0xe0) == Eight(0xe0) && LittleRow15(0xf0) == Eight(0xf0)
  {
  }

  lemma LittleRow1Splits(i: bv8)
    requires 0x10 <= i < 0x20
    ensures LittleRow1(i) == Xor(LittleRow1(0x10), LittleRow0(i & 0x0F))
  {
  }

  lemma LittleRow2Splits(i: bv8)
    requires 0x20 <= i < 0x30
    ensures LittleRow2(i) == Xor(LittleRow2(0x20), LittleRow0(i & 0x0F))
  {
  }

  lemma LittleRow3Splits(i: bv8)
    requires 0x30 <= i < 0x40
    ensures LittleRow3(i) == Xor(LittleRow3(0x30), LittleRow0(i & 0x0F))
  {
  }

  lemma LittleRow4Splits(i: bv8)
    requires 0x40 <= i < 0x50
    ensures LittleRow4(i) == Xor(LittleRow4(0x40), LittleRow0(i & 0x0F))
  {
  }

  lemma LittleRow5Splits(i: bv8)
    requires 0x50 <= i < 0x60
    ensures LittleRow5(i) == Xor(LittleRow5(0x50), LittleRow0(i & 0x0F))
  {
  }

  lemma LittleRow6Splits(i: bv8)
    requires 0x60 <= i < 0x70
    ensures LittleRow6(i) == Xor(LittleRow6(0x60), LittleRow0(i & 0x0F))
  {
  }

  lemma LittleRow7Splits(i: bv8)
    requires 0x70 <= i < 0x80
    ensures LittleRow7(i) == Xor(LittleRow7(0x70), LittleRow0(i & 0x0F))
  {
  }

  lemma LittleRow8Splits(i: bv8)
    requires 0x80 <= i < 0x90
    ensures LittleRow8(i) == Xor(LittleRow8(0x80), LittleRow0(i & 0x0F))
  {
  }

  lemma LittleRow9Splits(i: bv8)
    requires 0x90 <= i < 0xa0
    ensures LittleRow9(i) == Xor(LittleRow9(0x90), LittleRow0(i & 0x0F))
  {
  }

  lemma LittleRow10Splits(i: bv8)
    requires 0xa0 <= i < 0xb0
    ensures LittleRow10(i) == Xor(LittleRow10(0xa0), LittleRow0(i & 0x0F))
  {
  }

  lemma LittleRow11Splits(i: bv8)
    requires 0xb0 <= i < 0xc0
    ensures LittleRow11(i) == Xor(LittleRow11(0xb0), LittleRow0(i & 0x0F))
  {
  }

  lemma LittleRow12Splits(i: bv8)
    requires 0xc0 <= i < 0xd0
    ensures LittleRow12(i) == Xor(LittleRow12(0xc0), LittleRow0(i & 0x0F))
  {
  }

  lemma LittleRow13Splits(i: bv8)
    requires 0xd0 <= i < 0xe0
    ensures LittleRow13(i) == Xor(LittleRow13(0xd0), LittleRow0(i & 0x0F))
  {
  }

  lemma LittleRow14Splits(i: bv8)
    requires 0xe0 <= i < 0xf0
    ensures LittleRow14(i) == Xor(LittleRow14(0xe0), LittleRow0(i & 0x0F))
  {
  }

  lemma LittleRow15Splits(i: bv8)
    requires 0xf0 <= i
    ensures LittleRow15(i) == Xor(LittleRow15(0xf0), LittleRow0(i & 0x0F))
  {
  }

  lemma RowZeroIsEight(i: bv8)
    requires i < 0x10
    ensures LittleRow0(i) == Eight(i as bv32)
  {
    FirstEntries();
    NextEntries();
    LastEntries();
    hide Eight;
  }

  /** An entry is made of the first one of its row and one of the first row, as division is linear. */
  lemma EightSplits(i: bv8, start: bv8)
    requires start == i & 0xF0
    ensures Eight(i as bv32) == Xor(Eight(start as bv32), Eight((i & 0x0F) as bv32))
  {
    hide Eight;
    assert Xor(start as bv32, (i & 0x0F) as bv32) == i as bv32;
    hide Xor;
    EightOfXor(start as bv32, (i & 0x0F) as bv32);
  }

  lemma LowHalf(i: bv8)
    requires i < 0x80
    ensures Little(i) == Eight(i as bv32)
  {
    hide Eight, Xor, LittleRow0, LittleRow1, LittleRow2, LittleRow3, LittleRow4, LittleRow5, LittleRow6, LittleRow7, LittleRow8, LittleRow9, LittleRow10, LittleRow11, LittleRow12, LittleRow13, LittleRow14, LittleRow15;
    LowRows();
    RowZeroIsEight(i & 0x0F);
    if i < 0x10 {
      assert i & 0x0F == i;
    } else if i < 0x20 {
      LittleRow1Splits(i);
      EightSplits(i, 0x10);
    } else if i < 0x30 {
      LittleRow2Splits(i);
      EightSplits(i, 0x20);
    } else if i < 0x40 {
      LittleRow3Splits(i);
      EightSplits(i, 0x30);
    } else if i < 0x50 {
      LittleRow4Splits(i);
      EightSplits(i, 0x40);
    } else if i < 0x60 {
      LittleRow5Splits(i);
      EightSplits(i, 0x50);
    } else if i < 0x70 {
      LittleRow6Splits(i);
      EightSplits(i, 0x60);
    } else {
      LittleRow7Splits(i);
      EightSplits(i, 0x70);
    }
  }

  lemma HighHalf(i: bv8)
    requires i >= 0x80
    ensures Little(i) == Eight(i as bv32)
  {
    hide Eight, Xor, LittleRow0, LittleRow1, LittleRow2, LittleRow3, LittleRow4, LittleRow5, LittleRow6, LittleRow7, LittleRow8, LittleRow9, LittleRow10, LittleRow11, LittleRow12, LittleRow13, LittleRow14, LittleRow15;
    HighRows();
    RowZeroIsEight(i & 0x0F);
    if i < 0x90 {
      LittleRow8Splits(i);
      EightSplits(i, 0x80);
    } else if i < 0xa0 {
      LittleRow9Splits(i);
      EightSplits(i, 0x90);
    } else if i < 0xb0 {
      LittleRow10Splits(i);
      EightSplits(i, 0xa0);
    } else if i < 0xc0 {
      LittleRow11Splits(i);
      EightSplits(i, 0xb0);
    } else if i < 0xd0 {
      LittleRow12Splits(i);
      EightSplits(i, 0xc0);
    } else if i < 0xe0 {
      LittleRow13Splits(i);
      EightSplits(i, 0xd0);
    } else if i < 0xf0 {
      LittleRow14Splits(i);
      EightSplits(i, 0xe0);
    } else {
      LittleRow15Splits(i);
      EightSplits(i, 0xf0);
    }
  }

  /** Every entry of the table is eight steps of division. */
  lemma LittleIsEight(i: bv8)
    ensures Little(i) == Eight(i as bv32)
  {
    hide Eight, Little;
    if i < 0x80 {
      LowHalf(i);
    } else {
      HighHalf(i);
    }
  }

  // ------------------------------------------------------------------ the big-endian table

  lemma BigRow0IsSwapped(i: bv8)
    requires i < 0x10
    ensures BigRow0(i) == Swap(LittleRow0(i))
  {
  }

  lemma BigRow1IsSwapped(i: bv8)
    requires 0x10 <= i < 0x20
    ensures BigRow1(i) == Swap(LittleRow1(i))
  {
  }

  lemma BigRow2IsSwapped(i: bv8)
    requires 0x20 <= i < 0x30
    ensures BigRow2(i) == Swap(LittleRow2(i))
  {
  }

  lemma BigRow3IsSwapped(i: bv8)
    requires 0x30 <= i < 0x40
    ensures BigRow3(i) == Swap(LittleRow3(i))
  {
  }

  lemma BigRow4IsSwapped(i: bv8)
    requires 0x40 <= i < 0x50
    ensures BigRow4(i) == Swap(LittleRow4(i))
  {
  }

  lemma BigRow5IsSwapped(i: bv8)
    requires 0x50 <= i < 0x60
    ensures BigRow5(i) == Swap(LittleRow5(i))
  {
  }

  lemma BigRow6IsSwapped(i: bv8)
    requires 0x60 <= i < 0x70
    ensures BigRow6(i) == Swap(LittleRow6(i))
  {
  }

  lemma BigRow7IsSwapped(i: bv8)
    requires 0x70 <= i < 0x80
    ensures BigRow7(i) == Swap(LittleRow7(i))
  {
  }

  lemma BigRow8IsSwapped(i: bv8)
    requires 0x80 <= i < 0x90
    ensures BigRow8(i) == Swap(LittleRow8(i))
  {
  }

  lemma BigRow9IsSwapped(i: bv8)
    requires 0x90 <= i < 0xa0
    ensures BigRow9(i) == Swap(LittleRow9(i))
  {
  }

  lemma BigRow10IsSwapped(i: bv8)
    requires 0xa0 <= i < 0xb0
    ensures BigRow10(i) == Swap(LittleRow10(i))
  {
  }

  lemma BigRow11IsSwapped(i: bv8)
    requires 0xb0 <= i < 0xc0
    ensures BigRow11(i) == Swap(LittleRow11(i))
  {
  }

  lemma BigRow12IsSwapped(i: bv8)
    requires 0xc0 <= i < 0xd0
    ensures BigRow12(i) == Swap(LittleRow12(i))
  {
  }

  lemma BigRow13IsSwapped(i: bv8)
    requires 0xd0 <= i < 0xe0
    ensures BigRow13(i) == Swap(LittleRow13(i))
  {
  }

  lemma BigRow14IsSwapped(i: bv8)
    requires 0xe0 <= i < 0xf0
    ensures BigRow14(i) == Swap(LittleRow14(i))
  {
  }

  lemma BigRow15IsSwapped(i: bv8)
    requires 0xf0 <= i
    ensures BigRow15(i) == Swap(LittleRow15(i))
  {
  }

  /** Every entry is the one of the other table with its bytes swapped. */
  lemma BigIsSwapped(i: bv8)
    ensures Big(i) == Swap(Little(i))
  {
    hide Swap, LittleRow0, LittleRow1, LittleRow2, LittleRow3, LittleRow4, LittleRow5, LittleRow6, LittleRow7, LittleRow8, LittleRow9, LittleRow10, LittleRow11, LittleRow12, LittleRow13, LittleRow14, LittleRow15;
    hide BigRow0, BigRow1, BigRow2, BigRow3, BigRow4, BigRow5, BigRow6, BigRow7, BigRow8, BigRow9, BigRow10, BigRow11, BigRow12, BigRow13, BigRow14, BigRow15;
    if i < 0x10 {
      BigRow0IsSwapped(i);
    } else if i < 0x20 {
      BigRow1IsSwapped(i);
    } else if i < 0x30 {
      BigRow2IsSwapped(i);
    } else if i < 0x40 {
      BigRow3IsSwapped(i);
    } else if i < 0x50 {
      BigRow4IsSwapped(i);
    } else if i < 0x60 {
      BigRow5IsSwapped(i);
    } else if i < 0x70 {
      BigRow6IsSwapped(i);
    } else if i < 0x80 {
      BigRow7IsSwapped(i);
    } else if i < 0x90 {
      BigRow8IsSwapped(i);
    } else if i < 0xa0 {
      BigRow9IsSwapped(i);
    } else if i < 0xb0 {
      BigRow10IsSwapped(i);
    } else if i < 0xc0 {
      BigRow11IsSwapped(i);
    } else if i < 0xd0 {
      BigRow12IsSwapped(i);
    } else if i < 0xe0 {
      BigRow13IsSwapped(i);
    } else if i < 0xf0 {
      BigRow14IsSwapped(i);
    } else {
      BigRow15IsSwapped(i);
    }
  }
}
